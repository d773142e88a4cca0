/**
 * client.ts and tokenStore.ts as code: the exchange of the refresh token, its
 * single flight, and the 401 branch of the response interceptor.  Every state
 * passed through is reached by steps of SessionClient.
 */
module BrowserTab {
  import opened Prelude
  import Server = SessionServer
  import opened SessionClient

  /** An access token, named by the jti of the refresh token it came with. */
  type Access = nat

  ghost predicate Closed(reached: iset<World>, fam: Family) {
    forall w, a :: w in reached && Enabled(w, a, fam) ==> Do(w, a, fam) in reached
  }

  /** A failed request: its target, whether it was retried already, and its token. */
  datatype Request = Request(credentialCall: bool, retried: bool, sentWith: Option<Access>)

  class ApiClient {
    const tab: Tab
    const fam: Family
    var w: World
    var access: Option<Access>

    constructor (tab: Tab, fam: Family, w: World)
      ensures this.tab == tab && this.fam == fam && this.w == w && access.None?
    {
      this.tab, this.fam, this.w, access := tab, fam, w, None;
    }

    /** The browser and the server while this tab waits: steps of others, as far as they are possible. */
    method Await(others: seq<Action>, ghost reached: iset<World>)
      requires Closed(reached, fam) && w in reached
      modifies this`w
      ensures w in reached && FlightOf(w, tab) == FlightOf(old(w), tab)
      ensures old(w).server.requests.Keys <= w.server.requests.Keys && (others == [] ==> w == old(w))
    {
      var k := 0;
      while k < |others|
        invariant 0 <= k <= |others| && w in reached && FlightOf(w, tab) == FlightOf(old(w), tab)
        invariant old(w).server.requests.Keys <= w.server.requests.Keys && (k == 0 ==> w == old(w))
      {
        var a := others[k];
        if (a.Serve? || a.tab != tab) && Enabled(w, a, fam) {
          w := Do(w, a, fam);
        }
        k := k + 1;
      }
    }

    method SetTokens(t: Token)
      modifies this`w, this`access
      ensures w == old(w).(storage := Some(t)) && access == Some(t.jti)
    {
      access := Some(t.jti);
      w := w.(storage := Some(t));
    }

    method ClearTokens()
      modifies this`w, this`access
      ensures w == old(w).(storage := None) && access.None?
    {
      access := None;
      w := w.(storage := None);
    }

    /** What exchangeRefreshToken does with the answer (None: timeout or network error). */
    method Settle(answer: Option<Server.Reply>) returns (renewed: bool)
      modifies this`w, this`access
      ensures renewed <==> answer.Some? && answer.value.Pair?
      ensures w == old(w).(storage := if answer.Some? then StorageAfter(old(w).storage, answer.value) else old(w).storage)
      ensures access == (if answer.None? || answer.value.Unavailable? then old(access)
                         else if answer.value.Pair? then Some(answer.value.t.jti) else None)
      // No answer, or one of the server's failures, leaves the session; a refusal ends it.
      ensures answer.None? || answer.value.Unavailable? ==> w == old(w)
      ensures answer.Some? && answer.value.Pair? ==> w.storage == Some(answer.value.t)
      ensures answer.Some? && !answer.value.Pair? && !answer.value.Unavailable? ==> w.storage.None?
    {
      renewed := false;
      if answer.Some? && answer.value.Pair? {
        SetTokens(answer.value.t);
        renewed := true;
      } else if answer.Some? && !answer.value.Unavailable? {
        ClearTokens();
      }
    }

    /** The tab has its answer, or gave up, and releases the lock. */
    method Release(ghost before: World, answer: Option<Server.Reply>, ghost reached: iset<World>)
      requires Closed(reached, fam) && before in reached && FlightOf(before, tab).Exchanging?
      requires w == before.(storage := if answer.Some? then StorageAfter(before.storage, answer.value) else before.storage)
      requires answer.Some? ==>
        Enabled(before, Receive(tab), fam) && answer.value == before.server.requests[FlightOf(before, tab).q].reply
      modifies this`w
      ensures w in reached && FlightOf(w, tab).Idle? && w.lock.None?
      ensures w.server == old(w).server && w.storage == old(w).storage
    {
      w := w.(tabs := w.tabs[tab := Idle], lock := None);
      if answer.None? {
        w := w.(hurt := true);
        assert w == Do(before, Lose(tab), fam);
      } else {
        assert w == Do(before, Receive(tab), fam);
      }
    }

    /** exchangeRefreshToken under the lock; `others` is what happens until the answer or the timeout. */
    method ExchangeRefreshToken(q: Req, others: seq<Action>, ghost reached: iset<World>) returns (renewed: bool)
      requires Closed(reached, fam) && w in reached && Enabled(w, Acquire(tab, q), fam)
      modifies this`w, this`access
      ensures w in reached && FlightOf(w, tab).Idle?
      ensures renewed ==>
        && q in w.server.requests && w.server.requests[q].Answered? && w.server.requests[q].reply.Pair?
        && w.storage == Some(w.server.requests[q].reply.t) && access == Some(w.server.requests[q].reply.t.jti)
      ensures (&& old(w).storage.Some? && old(w).storage.value in old(w).server.issued
               && q in w.server.requests && w.server.requests[q].Answered? && w.server.requests[q].reply.Pair?) ==> renewed
      ensures !renewed ==> access.None? || access == old(access)
      // What was sent is the stored token, unless there was none to send.
      ensures old(w).storage.Some? && old(w).storage.value in old(w).server.issued ==> q in w.server.requests
      ensures old(w).storage.None? ==> !renewed && access.None? && w.storage.None?
    {
      ghost var granted := Do(w, Acquire(tab, q), fam);
      assert granted in reached;
      if w.storage.None? || w.storage.value !in w.server.issued {
        // No token, or one the server's signature check refuses.
        ClearTokens();
        w := w.(tabs := w.tabs[tab := Idle]);
        return false;
      }
      w := w.(server := Server.Do(w.server, Server.StartRefresh(q, w.storage.value)),
              tabs := w.tabs[tab := Exchanging(q)], lock := Some(tab));
      Await(others, reached);
      ghost var before := w;
      var answered := q in w.server.requests && w.server.requests[q].Answered?;
      var answer := if answered then Some(w.server.requests[q].reply) else None;
      renewed := Settle(answer);
      Release(before, answer, reached);
    }

    /** refreshSession: one exchange per tab at a time; None means another call's exchange is awaited. */
    method RefreshSession(q: Req, waiting: seq<Action>, others: seq<Action>, ghost reached: iset<World>)
      returns (renewed: Option<bool>)
      requires Closed(reached, fam) && w in reached
      modifies this`w, this`access
      ensures w in reached
      ensures !FlightOf(old(w), tab).Idle? ==> renewed.None? && w == old(w)
      ensures renewed == Some(true) ==> access.Some?
      ensures FlightOf(old(w), tab).Idle? && renewed.None? ==> FlightOf(w, tab).Waiting?
      // At its turn it exchanges, unless another tab is still in an exchange.
      ensures FlightOf(old(w), tab).Idle? && renewed.None? ==> w.lock.Some? || q in w.server.requests
      ensures FlightOf(old(w), tab).Idle? && waiting == [] && old(w).lock.None? && q !in old(w).server.requests ==>
        renewed.Some?
      ensures renewed != Some(true) ==> access.None? || access == old(access)
    {
      if !FlightOf(w, tab).Idle? {
        return None;
      }
      ghost var asked := Do(w, Refresh(tab), fam);
      assert asked in reached;
      w := w.(tabs := w.tabs[tab := Waiting]);
      Await(waiting, reached);
      if !Enabled(w, Acquire(tab, q), fam) {
        return None;
      }
      var done := ExchangeRefreshToken(q, others, reached);
      renewed := Some(done);
    }

    /**
     * The 401 branch: at most one retry per request, none for the credential
     * calls, and no exchange when the token was renewed meanwhile.
     */
    method OnUnauthorized(r: Request, q: Req, waiting: seq<Action>, others: seq<Action>, ghost reached: iset<World>)
      returns (r': Request, retryWith: Option<Access>)
      requires Closed(reached, fam) && w in reached
      modifies this`w, this`access
      ensures w in reached
      ensures r.retried || r.credentialCall ==> r' == r && retryWith.None? && w == old(w)
      ensures retryWith.Some? ==> r'.retried && !r.retried && r'.sentWith == retryWith && access == retryWith
      ensures !r.retried && !r.credentialCall && old(access).Some? && old(access) != r.sentWith ==>
        retryWith == old(access) && w == old(w)
      // A session renewed by its own exchange is used: the request is repeated.
      ensures access.Some? && access != old(access) ==> retryWith == access
      ensures retryWith.None? ==> r'.sentWith == r.sentWith
    {
      r', retryWith := r, None;
      if r.retried || r.credentialCall {
        return;
      }
      r' := r'.(retried := true);
      var renewed := access.Some? && r.sentWith != access;
      if !renewed {
        var exchange := RefreshSession(q, waiting, others, reached);
        renewed := exchange == Some(true);
      }
      if renewed && access.Some? {
        r' := r'.(sentWith := access);
        retryWith := access;
      }
    }
  }
}
