/**
 * When a session is seen as reuse: over every continuation after a lost answer
 * or a failure, exactly which refreshes find their token gone.
 */
module SessionReuse {
  import opened Prelude
  import Server = SessionServer
  import opened SessionClient

  /** The browser would present a token that the server no longer holds. */
  predicate Spent(w: World) {
    w.storage.Some? && Gone(w.server, w.storage.value)
  }

  /** In every execution of tabs that refresh: between exchanges the token is spent only after a loss. */
  lemma SpentOnlyAfterLoss(worlds: seq<World>, actions: seq<Action>, fam: Family, n: nat)
    requires Execution(worlds, actions, fam) && Opened(worlds[0], fam) && n < |worlds|
    requires worlds[n].lock.None? && Spent(worlds[n])
    ensures worlds[n].hurt
  {
    ExecutionKeepsInv(worlds, actions, fam, n);
  }

  // ---- the life of one token ----------------------------------------------------------------------

  predicate Presents(w: World, q: Req, t: Token) {
    q in w.server.requests && w.server.requests[q] == Server.Presented(t)
  }

  /** The step is a GETDEL of token t that takes effect, whether or not it then fails. */
  predicate Takes(w: World, a: Action, t: Token) {
    a.Serve? && a.a.Advance? && Presents(w, a.a.q, t) && Server.Happens(a.a.fault)
  }

  /** Such a step happened before the n-th. */
  predicate Taken(worlds: seq<World>, actions: seq<Action>, t: Token, n: nat)
    requires n <= |actions| <= |worlds|
  {
    exists k {:trigger actions[k]} :: 0 <= k < n && Takes(worlds[k], actions[k], t)
  }

  /** The same as a step of request q. */
  predicate TakenBy(worlds: seq<World>, actions: seq<Action>, t: Token, q: Req, n: nat)
    requires n <= |actions| <= |worlds|
  {
    exists k {:trigger actions[k]} :: 0 <= k < n && Takes(worlds[k], actions[k], t) && actions[k].a.q == q
  }

  /** No logout of the family is under way. */
  ghost predicate NobodyLeaves(w: World, fam: Family) {
    forall q <- w.server.requests :: w.server.requests[q].Leaving? || w.server.requests[q].Marked? ==>
      w.server.requests[q].t.fam != fam
  }

  lemma OtherJti(s: Server.State, t: Token, t': Token)
    requires Server.TokensOk(s) && t in s.issued && t' in s.issued && t != t'
    ensures t.jti != t'.jti
  {
  }

  /** GETDEL of one token leaves every other. */
  lemma GetDelTakes(s: Server.State, q: Req, t: Token, t': Token)
    requires Server.TokensOk(s) && t in s.issued && t' in s.issued
    ensures t.jti !in Server.GetDel(s, q, t'.jti).stored <==> t.jti !in s.stored || t == t'
  {
    if t != t' {
      OtherJti(s, t, t');
    }
  }

  lemma EffectTakes(s: Server.State, q: Req, p: Server.Phase, fault: Server.Fault, jti: Server.Jti, other: Family,
                    t: Token)
    requires Server.TokensOk(s) && t in s.issued && jti != t.jti
    requires Server.HasToken(p) ==> p.t in s.issued
    requires p.Marked? ==> p.t != t
    ensures t in Server.Effect(s, q, p, fault, jti, other).issued
    ensures t.jti !in Server.Effect(s, q, p, fault, jti, other).stored <==>
      t.jti !in s.stored || (p == Server.Presented(t) && Server.Happens(fault))
  {
    if p.Presented? {
      GetDelTakes(s, q, t, p.t);
    } else if p.Marked? {
      OtherJti(s, t, p.t);
    }
  }

  lemma NobodyLeavesNext(w: World, a: Action, fam: Family)
    requires Enabled(w, a, fam) && NobodyLeaves(w, fam)
    ensures NobodyLeaves(Do(w, a, fam), fam)
  {
  }

  /** A token goes exactly when a GETDEL of it takes effect. */
  lemma StepTakes(w: World, a: Action, fam: Family, t: Token)
    requires Server.Inv(w.server) && Enabled(w, a, fam) && NobodyLeaves(w, fam)
    requires t in w.server.issued && t.fam == fam
    ensures t in Do(w, a, fam).server.issued
    ensures Gone(Do(w, a, fam).server, t) <==> Gone(w.server, t) || Takes(w, a, t)
  {
    if a.Serve? && a.a.Advance? {
      var s, q := w.server, a.a.q;
      assert Server.RequestOk(s, q, s.requests[q]);
      EffectTakes(s, q, s.requests[q], a.a.fault, a.a.jti, a.a.fam, t);
    }
  }

  /** A token of the family, with no logout that could delete it. */
  ghost predicate Tracked(w: World, fam: Family, t: Token) {
    Inv(w, fam) && NobodyLeaves(w, fam) && t in w.server.issued && t.fam == fam
  }

  lemma TrackedNext(w: World, a: Action, fam: Family, t: Token)
    requires Tracked(w, fam, t) && Enabled(w, a, fam)
    ensures Tracked(Do(w, a, fam), fam, t)
    ensures Gone(Do(w, a, fam).server, t) <==> Gone(w.server, t) || Takes(w, a, t)
  {
    StepKeepsInv(w, a, fam);
    StepTakes(w, a, fam, t);
    NobodyLeavesNext(w, a, fam);
  }

  lemma TakenNext(worlds: seq<World>, actions: seq<Action>, t: Token, n: nat)
    requires n < |actions| <= |worlds|
    ensures Taken(worlds, actions, t, n + 1) <==> Taken(worlds, actions, t, n) || Takes(worlds[n], actions[n], t)
  {
  }

  /** In this step the token goes exactly if it is taken. */
  predicate GoesIfTaken(w: World, a: Action, w': World, t: Token) {
    Gone(w'.server, t) <==> Gone(w.server, t) || Takes(w, a, t)
  }

  lemma TrackedAt(worlds: seq<World>, actions: seq<Action>, fam: Family, t: Token, k: nat)
    requires Execution(worlds, actions, fam) && k < |actions| && Tracked(worlds[k], fam, t)
    ensures Tracked(worlds[k + 1], fam, t) && GoesIfTaken(worlds[k], actions[k], worlds[k + 1], t)
  {
    TrackedNext(worlds[k], actions[k], fam, t);
  }

  lemma {:induction false} StaysTracked(worlds: seq<World>, actions: seq<Action>, fam: Family, t: Token, n: nat)
    requires Execution(worlds, actions, fam) && n < |worlds| && Tracked(worlds[0], fam, t)
    ensures Tracked(worlds[n], fam, t)
  {
    if n > 0 {
      StaysTracked(worlds, actions, fam, t, n - 1);
      TrackedAt(worlds, actions, fam, t, n - 1);
    }
  }

  lemma {:induction false} GoneBySteps(worlds: seq<World>, actions: seq<Action>, t: Token, n: nat)
    requires n <= |actions| < |worlds|
    requires forall k {:trigger actions[k]} :: 0 <= k < n ==> GoesIfTaken(worlds[k], actions[k], worlds[k + 1], t)
    ensures Gone(worlds[n].server, t) <==> Gone(worlds[0].server, t) || Taken(worlds, actions, t, n)
  {
    if n > 0 {
      GoneBySteps(worlds, actions, t, n - 1);
      TakenNext(worlds, actions, t, n - 1);
      assert GoesIfTaken(worlds[n - 1], actions[n - 1], worlds[n], t);
    }
  }

  /** From any world: after any steps the token is gone exactly if it was gone or was taken since. */
  lemma GoneIffTaken(worlds: seq<World>, actions: seq<Action>, fam: Family, t: Token, n: nat)
    requires Execution(worlds, actions, fam) && n < |worlds| && Tracked(worlds[0], fam, t)
    ensures Tracked(worlds[n], fam, t)
    ensures Gone(worlds[n].server, t) <==> Gone(worlds[0].server, t) || Taken(worlds, actions, t, n)
  {
    StaysTracked(worlds, actions, fam, t, n);
    forall k {:trigger actions[k]} | 0 <= k < n ensures GoesIfTaken(worlds[k], actions[k], worlds[k + 1], t) {
      StaysTracked(worlds, actions, fam, t, k);
      TrackedAt(worlds, actions, fam, t, k);
    }
    GoneBySteps(worlds, actions, t, n);
  }

  /**
   * Of all the requests that present a token, in any number of refreshes, a
   * GETDEL that works is seen as reuse exactly if the token was gone at the start
   * or an earlier GETDEL of it took effect.
   */
  lemma SeenAsReuseIffTaken(worlds: seq<World>, actions: seq<Action>, fam: Family, t: Token, k: nat)
    requires Execution(worlds, actions, fam) && k < |actions|
    requires Tracked(worlds[0], fam, t)
    requires Takes(worlds[k], actions[k], t) && actions[k].a.fault.Works?
    ensures actions[k].a.q in worlds[k + 1].server.requests
    ensures worlds[k + 1].server.requests[actions[k].a.q] == Server.Reused(t)
       <==> Gone(worlds[0].server, t) || Taken(worlds, actions, t, k)
  {
    GoneIffTaken(worlds, actions, fam, t, k);
  }

  // ---- who presents it --------------------------------------------------------------------------------

  predicate Acquires(a: Action, q: Req) {
    a.Acquire? && a.q == q
  }

  lemma PresentsNext(w: World, a: Action, fam: Family, q: Req, t: Token)
    requires Enabled(w, a, fam) && t.fam == fam && Presents(Do(w, a, fam), q, t)
    ensures Presents(w, q, t) || Acquires(a, q)
  {
  }

  /** A request presents the token from the start, or is a later refresh. */
  lemma {:induction false} PresenterIs(worlds: seq<World>, actions: seq<Action>, fam: Family, t: Token, q: Req, n: nat)
    requires Execution(worlds, actions, fam) && n < |worlds| && t.fam == fam && Presents(worlds[n], q, t)
    ensures Presents(worlds[0], q, t) || exists k :: 0 <= k < n && Acquires(actions[k], q)
  {
    if n > 0 {
      PresentsNext(worlds[n - 1], actions[n - 1], fam, q, t);
      if Presents(worlds[n - 1], q, t) {
        PresenterIs(worlds, actions, fam, t, q, n - 1);
      }
    }
  }

  /** The request is before its GETDEL, with whatever token. */
  predicate Presented(w: World, q: Req) {
    q in w.server.requests && w.server.requests[q].Presented?
  }

  /** A request that no longer presents its token never does again. */
  lemma PastGetdelStep(w: World, a: Action, fam: Family, q: Req)
    requires Enabled(w, a, fam) && q in w.server.requests && !Presented(w, q)
    ensures q in Do(w, a, fam).server.requests && !Presented(Do(w, a, fam), q)
  {
  }

  lemma {:induction false} PastGetdelStays(worlds: seq<World>, actions: seq<Action>, fam: Family, q: Req, m: nat, n: nat)
    requires Execution(worlds, actions, fam) && m <= n < |worlds|
    requires q in worlds[m].server.requests && !Presented(worlds[m], q)
    ensures q in worlds[n].server.requests && !Presented(worlds[n], q)
  {
    if m < n {
      PastGetdelStays(worlds, actions, fam, q, m, n - 1);
      PastGetdelStep(worlds[n - 1], actions[n - 1], fam, q);
    }
  }

  lemma TakerIsPastGetdel(w: World, a: Action, fam: Family, t: Token)
    requires Enabled(w, a, fam) && Takes(w, a, t)
    ensures a.a.q in Do(w, a, fam).server.requests && !Presented(Do(w, a, fam), a.a.q)
  {
  }

  /** A request that still presents its token has not taken it. */
  lemma NotTakenByPresenter(worlds: seq<World>, actions: seq<Action>, fam: Family, t: Token, q: Req, n: nat)
    requires Execution(worlds, actions, fam) && n < |worlds| && Presents(worlds[n], q, t)
    ensures !TakenBy(worlds, actions, t, q, n)
  {
    forall k | 0 <= k < n && Takes(worlds[k], actions[k], t) ensures actions[k].a.q != q {
      if actions[k].a.q == q {
        TakerIsPastGetdel(worlds[k], actions[k], fam, t);
        PastGetdelStays(worlds, actions, fam, q, k + 1, n);
      }
    }
  }

  /** With one refresh, q, since a world where at most q0 presents the token, one of the two took it. */
  lemma TakenByOneOfTwo(worlds: seq<World>, actions: seq<Action>, fam: Family, t: Token, q0: Req, q: Req, n: nat)
    requires Execution(worlds, actions, fam) && n < |worlds| && t.fam == fam
    requires forall x <- worlds[0].server.requests :: Presents(worlds[0], x, t) ==> x == q0
    requires forall k {:trigger actions[k]} :: 0 <= k < n && actions[k].Acquire? ==> actions[k].q == q
    ensures Taken(worlds, actions, t, n) <==>
      TakenBy(worlds, actions, t, q0, n) || TakenBy(worlds, actions, t, q, n)
  {
    forall k | 0 <= k < n && Takes(worlds[k], actions[k], t) ensures actions[k].a.q == q0 || actions[k].a.q == q {
      PresenterIs(worlds, actions, fam, t, actions[k].a.q, k);
    }
  }

  // ---- until the next refresh -----------------------------------------------------------------------------

  /** No tab is in an exchange. */
  ghost predicate Quiet(w: World) {
    forall tab <- w.tabs :: !w.tabs[tab].Exchanging?
  }

  lemma {:induction false} QuietStays(worlds: seq<World>, actions: seq<Action>, fam: Family, n: nat)
    requires Execution(worlds, actions, fam) && n < |worlds| && Quiet(worlds[0])
    requires forall k {:trigger actions[k]} :: 0 <= k < n ==> !actions[k].Acquire?
    ensures Quiet(worlds[n]) && worlds[n].storage == worlds[0].storage
  {
    if n > 0 {
      QuietStays(worlds, actions, fam, n - 1);
      QuietStep(worlds[n - 1], actions[n - 1], fam);
    }
  }

  lemma QuietStep(w: World, a: Action, fam: Family)
    requires Enabled(w, a, fam) && Quiet(w) && !a.Acquire?
    ensures Quiet(Do(w, a, fam)) && Do(w, a, fam).storage == w.storage
  {
  }

  /** A world between exchanges in which at most request q0 still presents the stored token. */
  ghost predicate LeftBy(w: World, q0: Req, fam: Family) {
    && Inv(w, fam) && NobodyLeaves(w, fam) && Quiet(w)
    && w.storage.Some? && w.storage.value in w.server.issued && w.storage.value.fam == fam
    && forall x <- w.server.requests :: Presents(w, x, w.storage.value) ==> x == q0
  }

  /** Until the next refresh the stored token gets spent only by that request. */
  lemma SpentIffTaken(worlds: seq<World>, actions: seq<Action>, fam: Family, q0: Req, n: nat)
    requires Execution(worlds, actions, fam) && n < |worlds| && LeftBy(worlds[0], q0, fam)
    requires forall k {:trigger actions[k]} :: 0 <= k < n ==> !actions[k].Acquire?
    ensures Spent(worlds[n]) <==>
      Spent(worlds[0]) || TakenBy(worlds, actions, worlds[0].storage.value, q0, n)
  {
    var t := worlds[0].storage.value;
    QuietStays(worlds, actions, fam, n);
    GoneIffTaken(worlds, actions, fam, t, n);
    TakenByOneOfTwo(worlds, actions, fam, t, q0, q0, n);
  }

  /** The one refresh since then is q; step k is a GETDEL of the token that works. */
  ghost predicate GetdelAfter(worlds: seq<World>, actions: seq<Action>, fam: Family, q0: Req, q: Req, k: nat) {
    && Execution(worlds, actions, fam) && k < |actions| && LeftBy(worlds[0], q0, fam)
    && (forall j {:trigger actions[j]} :: 0 <= j < k && actions[j].Acquire? ==> actions[j].q == q)
    && Takes(worlds[k], actions[k], worlds[0].storage.value) && actions[k].a.fault.Works?
  }

  ghost predicate SeenAsReuse(worlds: seq<World>, actions: seq<Action>, k: nat)
    requires k < |actions| && |worlds| == |actions| + 1
  {
    && actions[k].Serve? && actions[k].a.q in worlds[k + 1].server.requests
    && worlds[k + 1].server.requests[actions[k].a.q].Reused?
  }

  /** Each of the two requests is seen as reuse exactly if the token was spent or the other took it first. */
  lemma ReuseOfTwo(worlds: seq<World>, actions: seq<Action>, fam: Family, q0: Req, q: Req, k: nat)
    requires GetdelAfter(worlds, actions, fam, q0, q, k) && q0 != q
    ensures actions[k].a.q == q ==> (SeenAsReuse(worlds, actions, k) <==>
      Spent(worlds[0]) || TakenBy(worlds, actions, worlds[0].storage.value, q0, k))
    ensures actions[k].a.q == q0 ==> (SeenAsReuse(worlds, actions, k) <==>
      Spent(worlds[0]) || TakenBy(worlds, actions, worlds[0].storage.value, q, k))
  {
    var t := worlds[0].storage.value;
    SeenAsReuseIffTaken(worlds, actions, fam, t, k);
    TakenByOneOfTwo(worlds, actions, fam, t, q0, q, k);
    NotTakenByPresenter(worlds, actions, fam, t, actions[k].a.q, k);
    assert worlds[k + 1].server.requests[actions[k].a.q].Reused? ==>
      worlds[k + 1].server.requests[actions[k].a.q] == Server.Reused(t);
  }

  // ---- a lost answer ----------------------------------------------------------------------------

  /** GETDEL has taken the token's record. */
  predicate BehindGetdel(p: Server.Phase) {
    p.Taken? || p.Checked? || p.Loaded? || (p.Answered? && !p.reply.Unavailable?)
  }

  /** The tab gives up on its request in a session without loss so far. */
  ghost predicate GivesUp(w: World, tab: Tab, fam: Family) {
    Inv(w, fam) && !w.hurt && Enabled(w, Lose(tab), fam)
  }

  lemma LossLeaves(w: World, tab: Tab, fam: Family)
    requires GivesUp(w, tab, fam)
    ensures FlightOf(w, tab).q in w.server.requests && LeftBy(Do(w, Lose(tab), fam), FlightOf(w, tab).q, fam)
    ensures Do(w, Lose(tab), fam).storage == w.storage
    ensures Spent(Do(w, Lose(tab), fam)) <==> BehindGetdel(w.server.requests[FlightOf(w, tab).q])
  {
  }

  /**
   * After a lost answer, until the next refresh and whatever else happens: the
   * token is spent exactly if the abandoned request was behind GETDEL when the
   * tab gave up or its GETDEL has taken effect since.
   */
  lemma SpentAfterLossIff(w: World, tab: Tab, worlds: seq<World>, actions: seq<Action>, fam: Family, n: nat)
    requires GivesUp(w, tab, fam) && Execution(worlds, actions, fam) && n < |worlds|
    requires worlds[0] == Do(w, Lose(tab), fam) && w.storage.Some?
    requires forall k {:trigger actions[k]} :: 0 <= k < n ==> !actions[k].Acquire?
    ensures var q0 := FlightOf(w, tab).q;
      && q0 in w.server.requests
      && (Spent(worlds[n]) <==>
            BehindGetdel(w.server.requests[q0]) || TakenBy(worlds, actions, w.storage.value, q0, n))
  {
    LossLeaves(w, tab, fam);
    SpentIffTaken(worlds, actions, fam, FlightOf(w, tab).q, n);
  }

  /**
   * After a lost answer, with one refresh since: the refresh is seen as reuse
   * exactly if the abandoned request was behind GETDEL at the loss or took the
   * token before it; the abandoned request is, exactly if the refresh was first.
   */
  lemma RefreshAfterLoss(w: World, tab: Tab, worlds: seq<World>, actions: seq<Action>, fam: Family, q: Req, k: nat)
    requires GivesUp(w, tab, fam) && worlds != [] && worlds[0] == Do(w, Lose(tab), fam)
    requires GetdelAfter(worlds, actions, fam, FlightOf(w, tab).q, q, k) && q != FlightOf(w, tab).q
    ensures var q0, t := FlightOf(w, tab).q, worlds[0].storage.value;
      && q0 in w.server.requests
      && (actions[k].a.q == q ==> (SeenAsReuse(worlds, actions, k) <==>
            BehindGetdel(w.server.requests[q0]) || TakenBy(worlds, actions, t, q0, k)))
      && (actions[k].a.q == q0 ==> (SeenAsReuse(worlds, actions, k) <==> TakenBy(worlds, actions, t, q, k)))
  {
    var q0 := FlightOf(w, tab).q;
    LossLeaves(w, tab, fam);
    ReuseOfTwo(worlds, actions, fam, q0, q, k);
    if actions[k].a.q == q0 && BehindGetdel(w.server.requests[q0]) {
      PastGetdelStays(worlds, actions, fam, q0, 0, k);
    }
  }

  // ---- a failing step -----------------------------------------------------------------------------

  /** The browser after a step of its own request failed and the 503 arrived. */
  function AfterFailure(w: World, tab: Tab, a: Server.Action, fam: Family): World
    requires Enabled(w, Serve(a), fam) && Enabled(Do(w, Serve(a), fam), Receive(tab), fam)
  {
    Do(Do(w, Serve(a), fam), Receive(tab), fam)
  }

  /** The failing step of the exchange under way. */
  predicate FailingStep(w: World, tab: Tab, a: Server.Action, fam: Family) {
    && w.lock == Some(tab) && FlightOf(w, tab).Exchanging?
    && a.Advance? && a.q == FlightOf(w, tab).q && a.fault.Fails? && Enabled(w, Serve(a), fam)
  }

  lemma FailureIsAnswered(w: World, tab: Tab, a: Server.Action, fam: Family)
    requires Inv(w, fam) && !w.hurt && FailingStep(w, tab, a, fam)
    ensures Enabled(Do(w, Serve(a), fam), Receive(tab), fam)
    ensures Do(w, Serve(a), fam).server.requests[a.q].reply.Unavailable?
    ensures Do(w, Serve(a), fam).storage == w.storage
  {
  }

  /** A failing step spends the token unless it is a GETDEL that did not happen. */
  lemma FailureSpendsIffBehindGetdel(w: World, tab: Tab, a: Server.Action, fam: Family)
    requires Inv(w, fam) && !w.hurt && FailingStep(w, tab, a, fam)
    ensures Enabled(Do(w, Serve(a), fam), Receive(tab), fam)
    ensures Spent(AfterFailure(w, tab, a, fam)) <==> BehindGetdel(w.server.requests[a.q]) || a.fault.effect
    ensures Hurts(w, a) <==> BehindGetdel(w.server.requests[a.q]) || a.fault.effect
  {
    FailureIsAnswered(w, tab, a, fam);
    var p, t := w.server.requests[a.q], w.storage.value;
    assert IsOurs(w, a.q) by {
      assert tab in w.tabs && w.tabs[tab] == Exchanging(a.q);
    }
    assert t in w.server.issued;
    if !p.Presented? {
      EffectSignsNewKeys(w.server, a.q, p, a.fault, a.jti, a.fam, t.jti);
    }
  }

  ghost predicate Fails(w: World, tab: Tab, a: Server.Action, fam: Family) {
    && Inv(w, fam) && !w.hurt && FailingStep(w, tab, a, fam)
    && Enabled(Do(w, Serve(a), fam), Receive(tab), fam)
  }

  lemma FailureKeepsInv(w: World, tab: Tab, a: Server.Action, fam: Family)
    requires Fails(w, tab, a, fam)
    ensures Inv(AfterFailure(w, tab, a, fam), fam)
  {
    StepKeepsInv(w, Serve(a), fam);
    StepKeepsInv(Do(w, Serve(a), fam), Receive(tab), fam);
  }

  /** Everybody else is where they were. */
  lemma FailureRequests(w: World, tab: Tab, a: Server.Action, fam: Family)
    requires Fails(w, tab, a, fam)
    ensures var v := AfterFailure(w, tab, a, fam);
      && v.server.requests == w.server.requests[a.q := Server.Answered(Server.Unavailable)]
      && v.tabs == w.tabs[tab := Idle] && v.storage == w.storage
  {
    assert w.server.requests[a.q] != Server.Answered(Server.Unavailable);
  }

  lemma FailureIssued(w: World, tab: Tab, a: Server.Action, fam: Family)
    requires Fails(w, tab, a, fam)
    ensures w.storage.Some? && w.storage.value.fam == fam && w.storage.value in w.server.issued
    ensures w.storage.value in AfterFailure(w, tab, a, fam).server.issued
  {
    assert w.server.issued <= Server.Effect(w.server, a.q, w.server.requests[a.q], a.fault, a.jti, a.fam).issued;
  }

  lemma FailureLeaves(w: World, tab: Tab, a: Server.Action, fam: Family)
    requires Fails(w, tab, a, fam)
    ensures LeftBy(AfterFailure(w, tab, a, fam), a.q, fam) && AfterFailure(w, tab, a, fam).storage == w.storage
    ensures a.q in AfterFailure(w, tab, a, fam).server.requests && !Presented(AfterFailure(w, tab, a, fam), a.q)
  {
    FailureKeepsInv(w, tab, a, fam);
    FailureRequests(w, tab, a, fam);
    FailureIssued(w, tab, a, fam);
  }

  /** After an answered failure nobody else has the token: the next refresh is reuse exactly if it was spent. */
  lemma RefreshAfterFailure(w: World, tab: Tab, a: Server.Action, worlds: seq<World>, actions: seq<Action>,
                            fam: Family, q: Req, k: nat)
    requires Fails(w, tab, a, fam)
    requires worlds != [] && worlds[0] == AfterFailure(w, tab, a, fam)
    requires GetdelAfter(worlds, actions, fam, a.q, q, k) && q != a.q
    ensures actions[k].a.q == q
    ensures SeenAsReuse(worlds, actions, k) <==> BehindGetdel(w.server.requests[a.q]) || a.fault.effect
  {
    FailureLeaves(w, tab, a, fam);
    FailureSpendsIffBehindGetdel(w, tab, a, fam);
    ReuseOfTwo(worlds, actions, fam, a.q, q, k);
    var t := worlds[0].storage.value;
    PresenterIs(worlds, actions, fam, t, actions[k].a.q, k);
    PastGetdelStays(worlds, actions, fam, a.q, 0, k);
    assert !TakenBy(worlds, actions, t, a.q, k) by {
      forall j | 0 <= j < k && Takes(worlds[j], actions[j], t) ensures actions[j].a.q != a.q {
        PastGetdelStays(worlds, actions, fam, a.q, 0, j);
      }
    }
  }
}
