/**
 * Browser tabs that share one stored refresh token, composed with the server:
 * single flight inside a tab, a Web Lock between tabs.  Tabs only refresh here.
 */
module SessionClient {
  import opened Prelude
  import Server = SessionServer
  import Laws = SessionLaws

  type Tab = nat
  type Token = Server.Token
  type Family = Server.Family
  type Req = Server.Req

  /** refreshInFlight of a tab: none, waiting for the lock, or exchanging under it. */
  datatype Flight = Idle | Waiting | Exchanging(q: Req)

  datatype World = World(
    server: Server.State,
    storage: Option<Token>,     // localStorage, shared by the tabs
    tabs: map<Tab, Flight>,
    lock: Option<Tab>,          // navigator.locks
    hurt: bool)                 // a response was lost, or a request failed after its GETDEL

  function FlightOf(w: World, tab: Tab): Flight {
    if tab in w.tabs then w.tabs[tab] else Idle
  }

  datatype Action =
    | Refresh(tab: Tab)                 // refreshSession()
    | Acquire(tab: Tab, q: Req)         // the lock is granted: read the token, send it
    | Serve(a: Server.Action)           // a step of the server, on any request
    | Receive(tab: Tab)                 // the answer arrives
    | Lose(tab: Tab)                    // timeout or network error instead of an answer

  predicate IsOurs(w: World, q: Req) {
    exists tab <- w.tabs :: w.tabs[tab] == Exchanging(q)
  }

  predicate Enabled(w: World, a: Action, fam: Family) {
    match a
    case Refresh(_) => true
    case Acquire(tab, q) => FlightOf(w, tab).Waiting? && w.lock.None? && q !in w.server.requests
    case Serve(sa) =>
      // Nobody else presents tokens of this session's family.
      && Server.Enabled(w.server, sa)
      && (sa.StartRefresh? || sa.StartLogout? ==> sa.t.fam != fam)
    case Receive(tab) =>
      && FlightOf(w, tab).Exchanging? && FlightOf(w, tab).q in w.server.requests
      && w.server.requests[FlightOf(w, tab).q].Answered?
    case Lose(tab) => FlightOf(w, tab).Exchanging?
  }

  /** setTokens on success, clearTokens below 500, otherwise the token is kept. */
  function StorageAfter(storage: Option<Token>, reply: Server.Reply): Option<Token> {
    match reply
    case Pair(t, _) => Some(t)
    case Unavailable => storage
    case _ => None
  }

  /** A failure that leaves the token spent: anything but a GETDEL that did not happen. */
  predicate Hurts(w: World, a: Server.Action) {
    && a.Advance? && a.fault.Fails? && IsOurs(w, a.q) && a.q in w.server.requests
    && !(w.server.requests[a.q].Presented? && !a.fault.effect)
  }

  function Do(w: World, a: Action, fam: Family): World
    requires Enabled(w, a, fam)
  {
    match a
    case Refresh(tab) =>
      // Single flight: a second call waits for the exchange under way.
      if FlightOf(w, tab).Idle? then w.(tabs := w.tabs[tab := Waiting]) else w
    case Acquire(tab, q) =>
      if w.storage.None? || w.storage.value !in w.server.issued then
        w.(storage := None, tabs := w.tabs[tab := Idle])
      else
        w.(server := Server.Do(w.server, Server.StartRefresh(q, w.storage.value)),
           tabs := w.tabs[tab := Exchanging(q)], lock := Some(tab))
    case Serve(sa) => w.(server := Server.Do(w.server, sa), hurt := w.hurt || Hurts(w, sa))
    case Receive(tab) =>
      var reply := w.server.requests[FlightOf(w, tab).q].reply;
      w.(storage := StorageAfter(w.storage, reply), tabs := w.tabs[tab := Idle], lock := None)
    case Lose(tab) => w.(tabs := w.tabs[tab := Idle], lock := None, hurt := true)
  }

  // ---- the invariant ----------------------------------------------------------------------------

  /** The stored token can still be exchanged. */
  predicate Live(s: Server.State, t: Token) {
    t.jti in s.stored && t in s.issued
  }

  /** The token was exchanged or lost: presenting it again is reuse. */
  predicate Gone(s: Server.State, t: Token) {
    t.jti !in s.stored && t in s.issued
  }

  /** The exchange of token t is in phase p. */
  predicate Exchange(s: Server.State, p: Server.Phase, t: Token, fam: Family) {
    match p
    case Presented(t') => t' == t && Live(s, t)
    case Taken(t', _) => t' == t && Gone(s, t)
    case Checked(t') => t' == t && Gone(s, t)
    case Loaded(t') => t' == t && Gone(s, t)
    case Answered(Pair(next, spent)) => Live(s, next) && next.fam == fam && spent == Some(t.jti) && Gone(s, t)
    case Answered(Unauthorized) => Gone(s, t)
    case Answered(Unavailable) => Live(s, t)
    case _ => false
  }

  /** Only the tab that holds the lock has a request of this family under way. */
  ghost predicate OnlyExchange(w: World, fam: Family) {
    && (forall tab <- w.tabs :: w.tabs[tab].Exchanging? ==> w.lock == Some(tab))
    && (w.lock.Some? ==> FlightOf(w, w.lock.value).Exchanging?)
    && (forall q <- w.server.requests :: Server.HasToken(w.server.requests[q]) && w.server.requests[q].t.fam == fam ==>
          w.lock.Some? && FlightOf(w, w.lock.value) == Exchanging(q))
  }

  ghost predicate Healthy(w: World, fam: Family) {
    && fam !in w.server.revoked
    && (w.storage.Some? ==> w.storage.value.fam == fam && w.storage.value in w.server.issued)
    && OnlyExchange(w, fam)
    && (w.lock.None? && w.storage.Some? ==> Live(w.server, w.storage.value))
    && (w.lock.Some? ==>
          var q := FlightOf(w, w.lock.value).q;
          && w.storage.Some? && q in w.server.requests
          && Exchange(w.server, w.server.requests[q], w.storage.value, fam))
  }

  ghost predicate Inv(w: World, fam: Family) {
    Server.Inv(w.server) && (w.hurt || Healthy(w, fam))
  }

  /** A session just opened by a login: one token, stored on both sides. */
  ghost predicate Opened(w: World, fam: Family) {
    && Server.Inv(w.server) && !w.hurt && w.lock.None? && w.storage.Some?
    && w.storage.value.fam == fam && Live(w.server, w.storage.value) && fam !in w.server.revoked
    && (forall tab <- w.tabs :: !w.tabs[tab].Exchanging?)
    && (forall q <- w.server.requests :: Server.HasToken(w.server.requests[q]) ==> w.server.requests[q].t.fam != fam)
  }

  lemma OpenedInv(w: World, fam: Family)
    requires Opened(w, fam)
    ensures Inv(w, fam)
  {
  }

  // ---- steps --------------------------------------------------------------------------------------

  /** Another token's record and mark are not this family's. */
  lemma OtherTokenKeepsLive(s: Server.State, t: Token, t': Token)
    requires Server.TokensOk(s) && Live(s, t) && t' in s.issued && t'.fam != t.fam
    ensures t'.jti != t.jti
  {
  }

  lemma EffectKeepsKey(s: Server.State, q: Req, p: Server.Phase, fault: Server.Fault, jti: Server.Jti, other: Family,
                       key: Server.Jti)
    requires Server.HasToken(p) ==> p.t.jti != key
    requires key in s.stored
    ensures key in Server.Effect(s, q, p, fault, jti, other).stored
  {
  }

  /** The only key a step adds is that of a newly signed token. */
  lemma EffectSignsNewKeys(s: Server.State, q: Req, p: Server.Phase, fault: Server.Fault, jti: Server.Jti, other: Family,
                           key: Server.Jti)
    requires key != jti && key !in s.stored
    ensures key !in Server.Effect(s, q, p, fault, jti, other).stored
  {
  }

  lemma EffectKeepsFamily(s: Server.State, q: Req, p: Server.Phase, fault: Server.Fault, jti: Server.Jti, other: Family,
                          fam: Family)
    requires Server.HasToken(p) ==> p.t.fam != fam
    ensures fam in Server.Effect(s, q, p, fault, jti, other).revoked <==> fam in s.revoked
    ensures s.issued <= Server.Effect(s, q, p, fault, jti, other).issued
  {
  }

  /** A server step on a request that carries no token of the family. */
  lemma ForeignStep(s: Server.State, a: Server.Action, t: Token, fam: Family)
    requires Server.Inv(s) && Server.Enabled(s, a) && t.fam == fam
    requires a.StartRefresh? || a.StartLogout? ==> a.t.fam != fam
    requires a.Advance? && Server.HasToken(s.requests[a.q]) ==> s.requests[a.q].t.fam != fam
    ensures Live(s, t) ==> Live(Server.Do(s, a), t)
    ensures t in s.issued ==> t in Server.Do(s, a).issued
    ensures Gone(s, t) ==> Gone(Server.Do(s, a), t)
    ensures fam !in s.revoked ==> fam !in Server.Do(s, a).revoked
  {
    if a.Advance? {
      var p := s.requests[a.q];
      assert Server.RequestOk(s, a.q, p);
      EffectKeepsFamily(s, a.q, p, a.fault, a.jti, a.fam, fam);
      if Gone(s, t) {
        EffectSignsNewKeys(s, a.q, p, a.fault, a.jti, a.fam, t.jti);
      }
      if Live(s, t) {
        if Server.HasToken(p) {
          OtherTokenKeepsLive(s, t, p.t);
        }
        EffectKeepsKey(s, a.q, p, a.fault, a.jti, a.fam, t.jti);
      }
    }
  }

  lemma ForeignRequests(s: Server.State, a: Server.Action, fam: Family, q: Req)
    requires Server.Enabled(s, a) && q in Server.Do(s, a).requests
    requires a.StartRefresh? || a.StartLogout? ==> a.t.fam != fam
    requires a.Advance? && Server.HasToken(s.requests[a.q]) ==> s.requests[a.q].t.fam != fam
    requires Server.HasToken(Server.Do(s, a).requests[q]) && Server.Do(s, a).requests[q].t.fam == fam
    ensures q in s.requests && Server.Do(s, a).requests[q] == s.requests[q]
  {
  }

  /** The family's own request goes on without a failure after GETDEL. */
  lemma OwnStep(s: Server.State, q: Req, fault: Server.Fault, jti: Server.Jti, other: Family, t: Token, fam: Family)
    requires Server.Inv(s) && Server.Enabled(s, Server.Advance(q, fault, jti, other))
    requires t.fam == fam && fam !in s.revoked && Exchange(s, s.requests[q], t, fam)
    requires fault.Fails? ==> s.requests[q].Presented? && !fault.effect
    ensures var s' := Server.DoAdvance(s, q, fault, jti, other);
      && q in s'.requests && fam !in s'.revoked && s.issued <= s'.issued
      && Exchange(s', s'.requests[q], t, fam)
  {
  }

  lemma ServeKeepsHealthy(w: World, a: Server.Action, fam: Family)
    requires Inv(w, fam) && Healthy(w, fam) && Enabled(w, Serve(a), fam) && !Hurts(w, a)
    ensures Healthy(Do(w, Serve(a), fam), fam)
  {
    var s, s' := w.server, Server.Do(w.server, a);
    if a.Advance? && Server.HasToken(s.requests[a.q]) && s.requests[a.q].t.fam == fam {
      OwnServeKeepsHealthy(w, a, fam);
    } else {
      ForeignServeKeepsHealthy(w, a, fam);
    }
  }

  lemma OwnServeKeepsHealthy(w: World, a: Server.Action, fam: Family)
    requires Inv(w, fam) && Healthy(w, fam) && Enabled(w, Serve(a), fam) && !Hurts(w, a)
    requires a.Advance? && Server.HasToken(w.server.requests[a.q]) && w.server.requests[a.q].t.fam == fam
    ensures Healthy(Do(w, Serve(a), fam), fam)
  {
    var tab := w.lock.value;
    assert w.tabs[tab] == Exchanging(a.q);
    OwnStep(w.server, a.q, a.fault, a.jti, a.fam, w.storage.value, fam);
    assert OnlyExchange(Do(w, Serve(a), fam), fam);
  }

  lemma ForeignServeKeepsExchange(w: World, a: Server.Action, fam: Family)
    requires OnlyExchange(w, fam) && Enabled(w, Serve(a), fam)
    requires a.Advance? && Server.HasToken(w.server.requests[a.q]) ==> w.server.requests[a.q].t.fam != fam
    ensures OnlyExchange(Do(w, Serve(a), fam), fam)
  {
    var s' := Server.Do(w.server, a);
    forall q <- s'.requests | Server.HasToken(s'.requests[q]) && s'.requests[q].t.fam == fam
      ensures w.lock.Some? && FlightOf(w, w.lock.value) == Exchanging(q)
    {
      ForeignRequests(w.server, a, fam, q);
    }
  }

  lemma ForeignKeepsFamily(s: Server.State, a: Server.Action, fam: Family)
    requires Server.Enabled(s, a) && fam !in s.revoked
    requires a.Advance? && Server.HasToken(s.requests[a.q]) ==> s.requests[a.q].t.fam != fam
    ensures fam !in Server.Do(s, a).revoked
  {
    if a.Advance? {
      EffectKeepsFamily(s, a.q, s.requests[a.q], a.fault, a.jti, a.fam, fam);
    }
  }

  lemma ForeignServeKeepsHealthy(w: World, a: Server.Action, fam: Family)
    requires Inv(w, fam) && Healthy(w, fam) && Enabled(w, Serve(a), fam)
    requires a.Advance? && Server.HasToken(w.server.requests[a.q]) ==> w.server.requests[a.q].t.fam != fam
    ensures Healthy(Do(w, Serve(a), fam), fam)
  {
    ForeignServeKeepsExchange(w, a, fam);
    ForeignKeepsFamily(w.server, a, fam);
    if w.storage.Some? {
      ForeignStep(w.server, a, w.storage.value, fam);
    }
    if w.lock.Some? {
      ForeignKeepsExchange(w.server, a, FlightOf(w, w.lock.value).q, w.storage.value, fam);
    }
  }

  lemma ForeignKeepsExchange(s: Server.State, a: Server.Action, q: Req, t: Token, fam: Family)
    requires Server.Inv(s) && Server.Enabled(s, a) && t.fam == fam
    requires a.StartRefresh? || a.StartLogout? ==> a.t.fam != fam
    requires a.Advance? && Server.HasToken(s.requests[a.q]) ==> s.requests[a.q].t.fam != fam
    requires q in s.requests && Exchange(s, s.requests[q], t, fam)
    ensures q in Server.Do(s, a).requests && Exchange(Server.Do(s, a), Server.Do(s, a).requests[q], t, fam)
  {
    assert a.q != q;
    ForeignStep(s, a, t, fam);
    var p := s.requests[q];
    if p.Answered? && p.reply.Pair? {
      ForeignStep(s, a, p.reply.t, fam);
    }
  }

  lemma TabStepKeepsHealthy(w: World, a: Action, fam: Family)
    requires Inv(w, fam) && Healthy(w, fam) && Enabled(w, a, fam) && (a.Refresh? || a.Acquire? || a.Receive?)
    ensures Healthy(Do(w, a, fam), fam)
  {
  }

  lemma StepKeepsInv(w: World, a: Action, fam: Family)
    requires Inv(w, fam) && Enabled(w, a, fam)
    ensures Inv(Do(w, a, fam), fam)
  {
    match a
    case Serve(sa) =>
      Laws.StepKeepsInv(w.server, sa);
      if !w.hurt && !Hurts(w, sa) {
        ServeKeepsHealthy(w, sa, fam);
      }
    case Acquire(tab, q) =>
      if w.storage.Some? && w.storage.value in w.server.issued {
        Laws.StepKeepsInv(w.server, Server.StartRefresh(q, w.storage.value));
      }
      if !w.hurt {
        TabStepKeepsHealthy(w, a, fam);
      }
    case Lose(_) =>
    case _ =>
      if !w.hurt {
        TabStepKeepsHealthy(w, a, fam);
      }
  }

  // ---- runs ---------------------------------------------------------------------------------------

  ghost predicate Execution(worlds: seq<World>, actions: seq<Action>, fam: Family) {
    && |worlds| == |actions| + 1
    && forall n {:trigger actions[n]} :: 0 <= n < |actions| ==>
         Enabled(worlds[n], actions[n], fam) && worlds[n + 1] == Do(worlds[n], actions[n], fam)
  }

  lemma {:induction false} ExecutionKeepsInv(worlds: seq<World>, actions: seq<Action>, fam: Family, n: nat)
    requires Execution(worlds, actions, fam) && Opened(worlds[0], fam) && n < |worlds|
    ensures Inv(worlds[n], fam)
  {
    if n == 0 {
      OpenedInv(worlds[0], fam);
    } else {
      ExecutionKeepsInv(worlds, actions, fam, n - 1);
      StepKeepsInv(worlds[n - 1], actions[n - 1], fam);
    }
  }

  /**
   * Any number of tabs, any interleaving with other sessions: as long as no
   * answer is lost and none of the session's requests fails after its GETDEL, the
   * server never sees a reused token of the family and never revokes it.
   */
  lemma NoReuseWithoutLoss(worlds: seq<World>, actions: seq<Action>, fam: Family, n: nat, q: Req)
    requires Execution(worlds, actions, fam) && Opened(worlds[0], fam) && n < |worlds| && !worlds[n].hurt
    ensures fam !in worlds[n].server.revoked
    ensures q in worlds[n].server.requests ==>
      !(worlds[n].server.requests[q].Reused? && worlds[n].server.requests[q].t.fam == fam)
  {
    ExecutionKeepsInv(worlds, actions, fam, n);
  }
}
