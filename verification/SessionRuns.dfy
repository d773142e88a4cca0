/** Whole runs of the session endpoints: rotation, revocation, versions. */
module SessionRuns {
  import opened Prelude
  import opened SessionServer
  import opened SessionLaws

  ghost predicate Execution(states: seq<State>, actions: seq<Action>) {
    && |states| == |actions| + 1
    && forall n {:trigger actions[n]} :: 0 <= n < |actions| ==>
         Enabled(states[n], actions[n]) && states[n + 1] == Do(states[n], actions[n])
  }

  lemma InitialInv(s: State)
    requires Initial(s)
    ensures Inv(s)
  {
  }

  lemma {:induction false} ExecutionKeepsInv(states: seq<State>, actions: seq<Action>, n: nat)
    requires Execution(states, actions) && Initial(states[0]) && n < |states|
    ensures Inv(states[n])
  {
    if n == 0 {
      InitialInv(states[0]);
    } else {
      ExecutionKeepsInv(states, actions, n - 1);
      StepKeepsInv(states[n - 1], actions[n - 1]);
    }
  }

  // ---- one live token per family ----------------------------------------------------------

  function StoredOf(s: State, fam: Family): set<Jti> {
    set jti | jti in s.stored && s.stored[jti].fam == fam
  }

  function FlightOf(s: State, fam: Family): set<Req> {
    set q | q in s.requests && InFlight(s.requests[q]) && s.requests[q].t.fam == fam
  }

  lemma SingletonSize<T>(xs: set<T>)
    requires forall x, y :: x in xs && y in xs ==> x == y
    ensures |xs| <= 1
  {
    if xs != {} {
      var x :| x in xs;
      assert xs == {x};
    }
  }

  /** At any moment a family's stored jtis and its requests between GETDEL and SET are at most one. */
  lemma OneLiveTokenPerFamily(states: seq<State>, actions: seq<Action>, n: nat, fam: Family)
    requires Execution(states, actions) && Initial(states[0]) && n < |states|
    ensures |StoredOf(states[n], fam)| + |FlightOf(states[n], fam)| <= 1
  {
    var s := states[n];
    ExecutionKeepsInv(states, actions, n);
    forall x, y | x in StoredOf(s, fam) && y in StoredOf(s, fam) ensures x == y {
      assert Holds(s, InStore(x), fam) && Holds(s, InStore(y), fam);
    }
    forall x, y | x in FlightOf(s, fam) && y in FlightOf(s, fam) ensures x == y {
      assert Holds(s, Carried(x), fam) && Holds(s, Carried(y), fam);
    }
    SingletonSize(StoredOf(s, fam));
    SingletonSize(FlightOf(s, fam));
    if x :| x in StoredOf(s, fam) {
      forall y ensures y !in FlightOf(s, fam) {
        assert Holds(s, InStore(x), fam) && (y in FlightOf(s, fam) ==> Holds(s, Carried(y), fam));
      }
      assert FlightOf(s, fam) == {};
    }
  }

  ghost predicate GotPair(s: State, q: Req) {
    q in s.requests && s.requests[q].Answered? && s.requests[q].reply.Pair?
  }

  /** A refresh token is exchanged for a pair at most once, however many requests present it. */
  lemma ExchangedAtMostOnce(states: seq<State>, actions: seq<Action>, n: nat, q: Req, q': Req)
    requires Execution(states, actions) && Initial(states[0]) && n < |states|
    requires GotPair(states[n], q) && GotPair(states[n], q')
    requires states[n].requests[q].reply.spent.Some?
    requires states[n].requests[q].reply.spent == states[n].requests[q'].reply.spent
    ensures q == q'
  {
    ExecutionKeepsInv(states, actions, n);
    assert RequestOk(states[n], q, states[n].requests[q]);
    assert RequestOk(states[n], q', states[n].requests[q']);
  }

  // ---- requests that can no longer succeed ----------------------------------------------------

  /** The account moved on since the token was signed. */
  predicate Outdated(s: State, uid: User, ver: nat) {
    uid in s.users && s.users[uid].version > ver
  }

  /** Not yet past the check that will stop it. */
  predicate Doomed(s: State, p: Phase) {
    match p
    case Presented(t) => t.fam in s.revoked || Outdated(s, t.uid, t.ver)
    case Reused(_) => true
    case Taken(t, _) => t.fam in s.revoked || Outdated(s, t.uid, t.ver)
    case Checked(t) => Outdated(s, t.uid, t.ver)
    case Changing(uid, ver, _) => Outdated(s, uid, ver)
    case Answered(reply) => !reply.Pair?
    case _ => false
  }

  lemma EffectIsMonotone(s: State, q: Req, p: Phase, fault: Fault, jti: Jti, fam: Family)
    ensures s.revoked <= Effect(s, q, p, fault, jti, fam).revoked
    ensures s.issued <= Effect(s, q, p, fault, jti, fam).issued
  {
  }

  lemma StepIsMonotone(s: State, a: Action)
    requires Enabled(s, a)
    ensures s.revoked <= Do(s, a).revoked && s.issued <= Do(s, a).issued
  {
    if a.Advance? {
      EffectIsMonotone(s, a.q, s.requests[a.q], a.fault, a.jti, a.fam);
    }
  }

  lemma EffectRaisesVersions(s: State, q: Req, p: Phase, fault: Fault, jti: Jti, fam: Family, uid: User)
    requires uid in s.users
    ensures var users := Effect(s, q, p, fault, jti, fam).users;
      && uid in users && s.users[uid].version <= users[uid].version
      && (users[uid].version == s.users[uid].version ==> users[uid] == s.users[uid])
  {
  }

  lemma VersionsRise(s: State, a: Action, uid: User)
    requires Enabled(s, a) && uid in s.users
    ensures uid in Do(s, a).users && s.users[uid].version <= Do(s, a).users[uid].version
    ensures Do(s, a).users[uid].version == s.users[uid].version ==> Do(s, a).users[uid] == s.users[uid]
  {
    if a.Advance? {
      EffectRaisesVersions(s, a.q, s.requests[a.q], a.fault, a.jti, a.fam, uid);
    }
  }

  lemma StepOfOther(s: State, a: Action, q: Req)
    requires Enabled(s, a) && q in s.requests && (a.Advance? ==> a.q != q)
    ensures q in Do(s, a).requests && Do(s, a).requests[q] == s.requests[q]
  {
  }

  lemma OutdatedStays(s: State, a: Action, uid: User, ver: nat)
    requires Enabled(s, a) && Outdated(s, uid, ver)
    ensures Outdated(Do(s, a), uid, ver)
  {
    VersionsRise(s, a, uid);
  }

  lemma DoomStays(s: State, a: Action, p: Phase)
    requires Enabled(s, a) && Doomed(s, p)
    ensures Doomed(Do(s, a), p)
  {
    StepIsMonotone(s, a);
    match p
    case Presented(t) => if t.fam !in s.revoked { OutdatedStays(s, a, t.uid, t.ver); }
    case Taken(t, _) => if t.fam !in s.revoked { OutdatedStays(s, a, t.uid, t.ver); }
    case Checked(t) => OutdatedStays(s, a, t.uid, t.ver);
    case Changing(uid, ver, _) => OutdatedStays(s, a, uid, ver);
    case _ =>
  }

  lemma DoomedAdvance(s: State, q: Req, fault: Fault, jti: Jti, fam: Family)
    requires q in s.requests && Doomed(s, s.requests[q])
    ensures var s' := DoAdvance(s, q, fault, jti, fam);
      q in s'.requests && s'.revoked >= s.revoked && s'.users == s.users && Doomed(s', s'.requests[q])
  {
  }

  lemma StepKeepsDoom(s: State, a: Action, q: Req)
    requires Enabled(s, a) && q in s.requests && Doomed(s, s.requests[q])
    ensures q in Do(s, a).requests && Doomed(Do(s, a), Do(s, a).requests[q])
  {
    if a.Advance? && a.q == q {
      DoomedAdvance(s, q, a.fault, a.jti, a.fam);
    } else {
      StepOfOther(s, a, q);
      DoomStays(s, a, s.requests[q]);
    }
  }

  /**
   * Once the family is marked revoked, a refresh that has not checked the mark
   * yet never returns a pair; once the account's version is past the token's, a
   * refresh that has not loaded the account, or a password change that has not
   * locked it, never does.
   */
  lemma {:induction false} DoomedNeverSucceed(states: seq<State>, actions: seq<Action>, m: nat, n: nat, q: Req)
    requires Execution(states, actions) && m <= n < |states|
    requires q in states[m].requests && Doomed(states[m], states[m].requests[q])
    ensures q in states[n].requests && Doomed(states[n], states[n].requests[q]) && !GotPair(states[n], q)
  {
    if m < n {
      DoomedNeverSucceed(states, actions, m, n - 1, q);
      StepKeepsDoom(states[n - 1], actions[n - 1], q);
    }
  }

  /** Revocations and signatures are never taken back. */
  predicate Kept(s: State, s': State) {
    s.revoked <= s'.revoked && s.issued <= s'.issued
  }

  lemma KeptByBoth(s: State, s': State, s'': State)
    requires Kept(s, s') && Kept(s', s'')
    ensures Kept(s, s'')
  {
  }

  lemma StepKeeps(s: State, a: Action)
    requires Enabled(s, a)
    ensures Kept(s, Do(s, a))
  {
    StepIsMonotone(s, a);
  }

  lemma {:induction false} RevokedStays(states: seq<State>, actions: seq<Action>, m: nat, n: nat)
    requires Execution(states, actions) && m <= n < |states|
    ensures Kept(states[m], states[n])
  {
    if m < n {
      RevokedStays(states, actions, m, n - 1);
      StepKeeps(states[n - 1], actions[n - 1]);
      KeptByBoth(states[m], states[n - 1], states[n]);
    }
  }

  /** A refresh that starts after its family was revoked never returns a pair. */
  lemma StartedTooLate(states: seq<State>, actions: seq<Action>, m: nat, k: nat, n: nat, q: Req, t: Token)
    requires Execution(states, actions) && m <= k < n < |states|
    requires t.fam in states[m].revoked && actions[k] == StartRefresh(q, t)
    ensures !GotPair(states[n], q)
  {
    RevokedStays(states, actions, m, k);
    assert Doomed(states[k + 1], states[k + 1].requests[q]);
    DoomedNeverSucceed(states, actions, k + 1, n, q);
  }

  // ---- at most one pair slips past a revocation ------------------------------------------------

  /** q was answered with a pair of the family after s0. */
  ghost predicate LatePair(s0: State, s: State, q: Req, fam: Family) {
    GotPair(s, q) && s.requests[q].reply.t.fam == fam && !GotPair(s0, q)
  }

  predicate PastCheck(s: State, q: Req, fam: Family) {
    q in s.requests && (s.requests[q].Checked? || s.requests[q].Loaded?) && s.requests[q].t.fam == fam
  }

  ghost predicate AtMostOneLate(s0: State, s: State, fam: Family) {
    && fam in s.revoked && !NewFamily(s, fam)
    && (forall q, q' :: LatePair(s0, s, q, fam) && LatePair(s0, s, q', fam) ==> q == q')
    && (forall q, q' :: LatePair(s0, s, q, fam) ==> !PastCheck(s, q', fam))
  }

  /** In a revoked family a pair comes only from a request already past the check. */
  lemma NewLatePairWasPastCheck(s: State, a: Action, q: Req, fam: Family)
    requires Inv(s) && Enabled(s, a) && fam in s.revoked && !NewFamily(s, fam)
    requires GotPair(Do(s, a), q) && Do(s, a).requests[q].reply.t.fam == fam && !GotPair(s, q)
    ensures a.Advance? && a.q == q && PastCheck(s, q, fam)
    ensures forall q' :: !PastCheck(Do(s, a), q', fam)
  {
    assert RequestOk(s, q, s.requests[q]);
    assert Holds(s, Carried(q), fam);
    forall q' ensures !PastCheck(Do(s, a), q', fam) {
      if q' != q && PastCheck(s, q', fam) {
        assert Holds(s, Carried(q'), fam);
      }
    }
  }

  lemma NoNewPastCheck(s: State, a: Action, q: Req, fam: Family)
    requires Enabled(s, a) && fam in s.revoked && PastCheck(Do(s, a), q, fam)
    ensures PastCheck(s, q, fam)
  {
  }

  lemma AnswersStay(s: State, a: Action, q: Req)
    requires Enabled(s, a) && GotPair(s, q)
    ensures GotPair(Do(s, a), q) && Do(s, a).requests[q] == s.requests[q]
  {
  }

  lemma NewLatePair(s0: State, s: State, a: Action, q: Req, fam: Family)
    requires Inv(s) && Enabled(s, a) && AtMostOneLate(s0, s, fam)
    requires LatePair(s0, Do(s, a), q, fam) && !LatePair(s0, s, q, fam)
    ensures a.Advance? && a.q == q
    ensures forall q' :: !PastCheck(Do(s, a), q', fam) && !LatePair(s0, s, q', fam)
  {
    if GotPair(s, q) {
      AnswersStay(s, a, q);
    }
    NewLatePairWasPastCheck(s, a, q, fam);
  }

  lemma StepKeepsAtMostOneLate(s0: State, s: State, a: Action, fam: Family)
    requires Inv(s) && Enabled(s, a) && AtMostOneLate(s0, s, fam)
    ensures AtMostOneLate(s0, Do(s, a), fam)
  {
    var s' := Do(s, a);
    StepIsMonotone(s, a);
    assert !NewFamily(s', fam) by {
      var t :| t in s.issued && t.fam == fam;
      assert t in s'.issued;
    }
    forall q, q' | LatePair(s0, s', q, fam) ensures !PastCheck(s', q', fam) {
      if !LatePair(s0, s, q, fam) {
        NewLatePair(s0, s, a, q, fam);
      } else if PastCheck(s', q', fam) {
        NoNewPastCheck(s, a, q', fam);
      }
    }
    forall q, q' | LatePair(s0, s', q, fam) && LatePair(s0, s', q', fam) ensures q == q' {
      if !LatePair(s0, s, q, fam) {
        NewLatePair(s0, s, a, q, fam);
      }
      if !LatePair(s0, s, q', fam) {
        NewLatePair(s0, s, a, q', fam);
      }
    }
  }

  lemma NoneLateYet(s: State, fam: Family)
    requires fam in s.revoked && !NewFamily(s, fam)
    ensures AtMostOneLate(s, s, fam)
  {
  }

  /** After the family is revoked at most one request still gets a pair, an exchange already past the check. */
  lemma {:induction false} OnePairAfterRevocation(states: seq<State>, actions: seq<Action>, m: nat, n: nat, fam: Family)
    requires Execution(states, actions) && Initial(states[0]) && m <= n < |states|
    requires fam in states[m].revoked && !NewFamily(states[m], fam)
    ensures AtMostOneLate(states[m], states[n], fam)
  {
    if m == n {
      NoneLateYet(states[m], fam);
    } else {
      OnePairAfterRevocation(states, actions, m, n - 1, fam);
      ExecutionKeepsInv(states, actions, n - 1);
      StepKeepsAtMostOneLate(states[m], states[n - 1], actions[n - 1], fam);
    }
  }

  /** The pair that slips through is of no use: its refresh token is never exchanged. */
  lemma LatePairIsDead(states: seq<State>, actions: seq<Action>, m: nat, k: nat, n: nat, q: Req, t: Token)
    requires Execution(states, actions) && Initial(states[0]) && m <= n < |states| && k < |actions|
    requires t.fam in states[m].revoked && t !in states[m].issued && actions[k] == StartRefresh(q, t)
    requires k < n
    ensures !GotPair(states[n], q)
  {
    if k < m {
      RevokedStays(states, actions, k, m);
    } else {
      StartedTooLate(states, actions, m, k, n, q, t);
    }
  }

  // ---- accounts -----------------------------------------------------------------------------------

  /** The account stays, its version never falls, and nothing changes without the version. */
  predicate AccountKept(s: State, s': State, uid: User) {
    uid in s.users ==>
      && uid in s'.users && s.users[uid].version <= s'.users[uid].version
      && (s.users[uid].version == s'.users[uid].version ==> s.users[uid] == s'.users[uid])
  }

  lemma AccountKeptByBoth(s: State, s': State, s'': State, uid: User)
    requires AccountKept(s, s', uid) && AccountKept(s', s'', uid)
    ensures AccountKept(s, s'', uid)
  {
  }

  lemma StepKeepsAccount(s: State, a: Action, uid: User)
    requires Enabled(s, a)
    ensures AccountKept(s, Do(s, a), uid)
  {
    if uid in s.users {
      VersionsRise(s, a, uid);
    }
  }

  lemma NextKeepsAccount(states: seq<State>, actions: seq<Action>, k: nat, uid: User)
    requires Execution(states, actions) && k < |actions|
    ensures AccountKept(states[k], states[k + 1], uid)
  {
    StepKeepsAccount(states[k], actions[k], uid);
  }

  lemma {:induction false} AccountsKept(states: seq<State>, actions: seq<Action>, m: nat, n: nat, uid: User)
    requires Execution(states, actions) && m <= n < |states|
    ensures AccountKept(states[m], states[n], uid)
  {
    if m < n {
      AccountsKept(states, actions, m, n - 1, uid);
      NextKeepsAccount(states, actions, n - 1, uid);
      AccountKeptByBoth(states[m], states[n - 1], states[n], uid);
    }
  }

  /** Password, role and status only change together with the version, so a version names one account state. */
  lemma VersionNamesAccount(states: seq<State>, actions: seq<Action>, m: nat, n: nat, uid: User)
    requires Execution(states, actions) && m <= n < |states| && uid in states[m].users
    ensures uid in states[n].users && states[m].users[uid].version <= states[n].users[uid].version
    ensures states[m].users[uid].version == states[n].users[uid].version ==> states[m].users[uid] == states[n].users[uid]
  {
    AccountsKept(states, actions, m, n, uid);
  }

  /**
   * No reset is lost: the holder of a token writes a password only over exactly
   * the account state that token was issued for, and only knowing its password.
   */
  lemma ChangeOverwritesOnlyItsVersion(states: seq<State>, actions: seq<Action>, n: nat)
    requires Execution(states, actions) && Initial(states[0]) && n < |actions|
    requires actions[n].Advance? && states[n].requests[actions[n].q].ChangeLocked?
    ensures var s, s', p := states[n], states[n + 1], states[n].requests[actions[n].q];
      && p.uid in s.users && s.users[p.uid].version == p.ver
      && (s'.users != s.users ==>
            && s.users[p.uid].password == p.change.current && p.change.allowed
            && s'.users == s.users[p.uid := s.users[p.uid].(version := p.ver + 1, password := p.change.new_)])
  {
    ExecutionKeepsInv(states, actions, n);
    assert LockOk(states[n], actions[n].q, states[n].requests[actions[n].q]);
  }

  /** Waiting for a row ends: its holder can always go on, and any step of it, failing or not, frees the row. */
  lemma HolderFreesRow(s: State, uid: User, fault: Fault, jti: Jti, fam: Family)
    requires Inv(s) && uid in s.locks && NewJti(s, jti) && NewFamily(s, fam)
    ensures var a := Advance(s.locks[uid], fault, jti, fam);
      Enabled(s, a) && uid !in Do(s, a).locks
  {
    var q := s.locks[uid];
    assert q in s.requests && HoldsLock(s.requests[q], uid) && LockOk(s, q, s.requests[q]);
  }

  /**
   * update_user writes the fields it is given, keeps the others, and makes the
   * issued tokens invalid exactly if it sets a password or changes role or status.
   */
  lemma UpdateWrites(s: State, q: Req, jti: Jti, fam: Family)
    requires q in s.requests && s.requests[q].UpdateLocked? && s.requests[q].uid in s.users
    ensures var p, was := s.requests[q], s.users[s.requests[q].uid];
      var s' := DoAdvance(s, q, Works, jti, fam);
      && p.uid in s'.users && s'.users - {p.uid} == s.users - {p.uid}
      && var after := s'.users[p.uid];
         && (p.password.Some? ==> after.password == p.password.value) && (p.password.None? ==> after.password == was.password)
         && (p.active.Some? ==> after.active == p.active.value) && (p.active.None? ==> after.active == was.active)
         && (p.role.Some? ==> after.role == p.role.value) && (p.role.None? ==> after.role == was.role)
         && (after.version == was.version || after.version == was.version + 1)
         && (after.version > was.version <==> p.password.Some? || after.active != was.active || after.role != was.role)
  {
  }

  // ---- an undisturbed refresh ---------------------------------------------------------------------

  /** The commands of one request, all of which work. */
  function Works4(s: State, q: Req, jti: Jti, fam: Family): State
    requires q in s.requests
  {
    var s1 := DoAdvance(s, q, Works, jti, fam);
    var s2 := DoAdvance(s1, q, Works, jti, fam);
    var s3 := DoAdvance(s2, q, Works, jti, fam);
    DoAdvance(s3, q, Works, jti, fam)
  }

  /**
   * A stored token of a family that is not revoked and of a live account at its
   * version is exchanged for a pair of the same family, user and version; the
   * new token replaces the old one in the store, and nothing else changes.
   */
  lemma LiveTokenIsExchanged(s: State, q: Req, t: Token, jti: Jti, fam: Family)
    requires Inv(s) && q in s.requests && s.requests[q] == Presented(t) && t.jti in s.stored && t.fam !in s.revoked
    requires t.uid in s.users && s.users[t.uid].active && s.users[t.uid].version == t.ver
    ensures var s', next := Works4(s, q, jti, fam), Token(jti, t.fam, t.uid, t.ver);
      && s'.requests == s.requests[q := Answered(Pair(next, Some(t.jti)))]
      && s'.stored == (s.stored - {t.jti})[jti := Record(t.uid, t.fam)]
      && s'.revoked == s.revoked && s'.users == s.users && s'.issued == s.issued + {next}
  {
    assert RequestOk(s, q, s.requests[q]);
    RecordIsOwn(s, t);
    var s1 := DoAdvance(s, q, Works, jti, fam);
    assert s1.requests[q] == Taken(t, Record(t.uid, t.fam));
    var s2 := DoAdvance(s1, q, Works, jti, fam);
    assert s2.requests[q] == Checked(t);
    var s3 := DoAdvance(s2, q, Works, jti, fam);
    assert s3.requests[q] == Loaded(t);
    var s4 := DoAdvance(s3, q, Works, jti, fam);
    assert s4.requests == s.requests[q := Answered(Pair(Token(jti, t.fam, t.uid, t.ver), Some(t.jti)))];
  }
}
