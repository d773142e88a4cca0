/**
 * The handlers of api/auth.py as code over Redis and the account rows.  Between
 * two awaits any other requests run; each handler is shown to be a path of
 * SessionServer, so the laws of every interleaving hold of it.
 */
module AuthApi {
  import opened Prelude
  import opened SessionServer
  import opened SessionLaws
  import opened SessionRuns

  ghost predicate Closed(reached: iset<State>) {
    forall s, a :: s in reached && Enabled(s, a) ==> Do(s, a) in reached
  }


  lemma EffectKeepsRequests(s: State, q: Req, p: Phase, fault: Fault, jti: Jti, fam: Family)
    ensures Effect(s, q, p, fault, jti, fam).requests == s.requests
  {
  }

  lemma OtherKeepsPhase(s: State, a: Action, q: Req)
    requires Inv(s) && Enabled(s, a) && a.q != q && q in s.requests
    ensures q in Do(s, a).requests && Do(s, a).requests[q] == s.requests[q]
    ensures Doomed(s, s.requests[q]) ==> Doomed(Do(s, a), s.requests[q])
    ensures Inv(Do(s, a)) && s.revoked <= Do(s, a).revoked
  {
    StepKeepsInv(s, a);
    StepIsMonotone(s, a);
    StepOfOther(s, a, q);
    if Doomed(s, s.requests[q]) {
      DoomStays(s, a, s.requests[q]);
    }
  }

  /** No account is lost, and a version still names the same account. */
  ghost predicate AccountsStay(s: State, s': State) {
    forall uid <- s.users :: AccountKept(s, s', uid)
  }

  lemma AccountsStayByBoth(s: State, s': State, s'': State)
    requires AccountsStay(s, s') && AccountsStay(s', s'')
    ensures AccountsStay(s, s'')
  {
    forall uid <- s.users ensures AccountKept(s, s'', uid) {
      AccountKeptByBoth(s, s', s'', uid);
    }
  }

  lemma AccountsStayOn(before: State, s: State, a: Action)
    requires Enabled(s, a) && AccountsStay(before, s)
    ensures AccountsStay(before, Do(s, a))
  {
    forall uid <- before.users ensures AccountKept(before, Do(s, a), uid) {
      StepKeepsAccount(s, a, uid);
      AccountKeptByBoth(before, s, Do(s, a), uid);
    }
  }

  lemma FreshIdsExist(issued: set<Token>) returns (jti: Jti, fam: Family)
    ensures forall t <- issued :: t.jti != jti && t.fam != fam
  {
    jti, fam := 0, 0;
    var rest := issued;
    while rest != {}
      invariant rest <= issued
      invariant forall t <- issued - rest :: t.jti < jti && t.fam < fam
      decreases |rest|
    {
      var t :| t in rest;
      jti, fam := Max(jti, t.jti + 1), Max(fam, t.fam + 1);
      rest := rest - {t};
    }
  }

  /** The account of the token exists, may log in and still has the token's version. */
  predicate HasAccount(s: State, t: Token) {
    t.uid in s.users && s.users[t.uid].active && s.users[t.uid].version == t.ver
  }

  /** A live account at this version, whose password is known and whose new one is allowed. */
  predicate MayChange(s: State, uid: User, ver: nat, change: Change) {
    && uid in s.users && s.users[uid].active && s.users[uid].version == ver
    && s.users[uid].password == change.current && change.allowed
  }

  predicate AllWork(faults: seq<Fault>) {
    forall k :: 0 <= k < |faults| ==> faults[k].Works?
  }

  class AuthService {
    var s: State
    /** What other requests do while this one waits. */
    var others: seq<seq<Action>>

    constructor (s: State, others: seq<seq<Action>>)
      ensures this.s == s && this.others == others
    {
      this.s, this.others := s, others;
    }

    ghost predicate Runs(q: Req, p: Phase, reached: iset<State>)
      reads this
    {
      Closed(reached) && s in reached && Inv(s) && q in s.requests && s.requests[q] == p
    }

    /** await: some steps of other requests, as far as they are possible. */
    method Await(q: Req, ghost p: Phase, ghost reached: iset<State>)
      requires Runs(q, p, reached)
      modifies this
      ensures Runs(q, p, reached) && (Doomed(old(s), p) ==> Doomed(s, p))
      ensures old(s).revoked <= s.revoked && AccountsStay(old(s), s)
      ensures others == if old(others) == [] then [] else old(others)[1..]
      ensures old(others) == [] ==> s == old(s)
    {
      if others == [] {
        return;
      }
      var todo := others[0];
      others := others[1..];
      var k := 0;
      while k < |todo|
        invariant 0 <= k <= |todo|
        invariant Runs(q, p, reached) && (Doomed(old(s), p) ==> Doomed(s, p))
        invariant old(s).revoked <= s.revoked && AccountsStay(old(s), s) && others == old(others)[1..]
      {
        var a := todo[k];
        if a.q != q && Enabled(s, a) {
          OtherKeepsPhase(s, a, q);
          AccountsStayOn(old(s), s, a);
          s := Do(s, a);
        }
        k := k + 1;
      }
    }

    /** The request goes on after a command that turned `before` into the present tables. */
    method Go(q: Req, p: Phase, ghost before: State, ghost fault: Fault, ghost jti: Jti, ghost fam: Family,
              ghost reached: iset<State>)
      requires Closed(reached) && before in reached && Inv(before)
      requires Enabled(before, Advance(q, fault, jti, fam))
      requires s == Effect(before, q, before.requests[q], fault, jti, fam)
      requires p == NextPhase(before, before.requests[q], fault, jti, fam)
      modifies this`s
      ensures Runs(q, p, reached) && s == old(s).(requests := s.requests)
      ensures Doomed(before, before.requests[q]) ==> Doomed(s, p)
    {
      EffectKeepsRequests(before, q, before.requests[q], fault, jti, fam);
      s := s.(requests := s.requests[q := p]);
      StepKeepsInv(before, Advance(q, fault, jti, fam));
      assert s == Do(before, Advance(q, fault, jti, fam));
      if Doomed(before, before.requests[q]) {
        DoomedAdvance(before, q, fault, jti, fam);
      }
    }

    method RedisGetDel(q: Req, jti: Jti, fault: Fault) returns (record: Option<Record>)
      modifies this`s
      ensures record == if jti in old(s).stored then Some(old(s).stored[jti]) else None
      ensures s == if Happens(fault) then GetDel(old(s), q, jti) else old(s)
    {
      record := if jti in s.stored then Some(s.stored[jti]) else None;
      if Happens(fault) && record.Some? {
        s := s.(stored := s.stored - {jti}, hits := s.hits[jti := q]);
      }
    }

    method RedisRevoke(fam: Family, fault: Fault)
      modifies this`s
      ensures s == if Happens(fault) then Revoke(old(s), fam) else old(s)
    {
      if Happens(fault) {
        s := s.(revoked := s.revoked + {fam});
      }
    }

    method RedisDelete(jti: Jti, fault: Fault)
      modifies this`s
      ensures s == if Happens(fault) then old(s).(stored := old(s).stored - {jti}) else old(s)
    {
      if Happens(fault) {
        s := s.(stored := s.stored - {jti});
      }
    }

    /** _issue_pair without its error handling: sign, then SET. */
    method IssuePair(t: Token, fault: Fault)
      modifies this`s
      ensures s == Issue(old(s), t, fault)
    {
      s := s.(issued := s.issued + {t});
      if Happens(fault) {
        s := s.(stored := s.stored[t.jti := Record(t.uid, t.fam)]);
      }
    }

    /** uuid4: an id that no issued token uses. */
    method NewUuids() returns (jti: Jti, fam: Family)
      ensures NewJti(s, jti) && NewFamily(s, fam)
    {
      ghost var j, f := FreshIdsExist(s.issued);
      assert NewJti(s, j) && NewFamily(s, f);
      jti :| NewJti(s, jti);
      fam :| NewFamily(s, fam);
    }

    /** POST /auth/refresh with a signed token; faults[k] strikes the k-th command. */
    method Refresh(q: Req, t: Token, faults: seq<Fault>, ghost reached: iset<State>) returns (reply: Reply)
      requires |faults| == 4 && Closed(reached) && s in reached && Inv(s)
      requires q !in s.requests && t in s.issued
      modifies this
      ensures Runs(q, Answered(reply), reached)
      ensures t.fam in old(s).revoked || Outdated(old(s), t.uid, t.ver) ==> !reply.Pair?
      ensures reply.Pair? ==> reply.t.fam == t.fam && reply.t.uid == t.uid && reply.t.ver == t.ver && reply.spent == Some(t.jti)
      ensures AllWork(faults) ==> reply.Pair? || reply.Unauthorized?
      // Undisturbed, a refresh succeeds exactly with a live token of a live account.
      ensures AllWork(faults) && old(others) == [] ==>
        (reply.Pair? <==>
           && t.jti in old(s).stored && old(s).stored[t.jti] == Record(t.uid, t.fam)
           && t.fam !in old(s).revoked && HasAccount(old(s), t))
      // Its new token is stored for the next refresh.
      ensures reply.Pair? ==> reply.t.jti in s.stored && s.stored[reply.t.jti] == Record(t.uid, t.fam)
      // A token that is gone costs the family.
      ensures AllWork(faults) && old(others) == [] && t.jti !in old(s).stored ==> t.fam in s.revoked
    {
      StepKeepsInv(s, StartRefresh(q, t));
      s := To(s, q, Presented(t));
      Await(q, Presented(t), reached);
      var record := TakeRecord(q, t, faults[0], reached);
      if faults[0].Fails? {
        return Unavailable;
      }
      if record.None? {
        Await(q, Reused(t), reached);
        reply := RevokeFamily(q, t, faults[1], reached);
        return;
      }
      Await(q, Taken(t, record.value), reached);
      reply := Exchange(q, t, record.value, faults, reached);
    }

    /** GETDEL and what follows from its answer. */
    method TakeRecord(q: Req, t: Token, fault: Fault, ghost reached: iset<State>) returns (record: Option<Record>)
      requires Runs(q, Presented(t), reached)
      modifies this`s
      ensures fault.Fails? ==> Runs(q, Answered(Unavailable), reached)
      ensures fault.Works? ==> record == (if t.jti in old(s).stored then Some(old(s).stored[t.jti]) else None)
      ensures s.revoked == old(s).revoked && s.users == old(s).users
      ensures fault.Works? && record.None? ==> Runs(q, Reused(t), reached)
      ensures fault.Works? && record.Some? ==>
        Runs(q, Taken(t, record.value), reached)
        && (Doomed(old(s), Presented(t)) ==> Doomed(s, Taken(t, record.value)))
    {
      ghost var before := s;
      ghost var jti, fam := FreshIdsExist(s.issued);
      record := RedisGetDel(q, t.jti, fault);
      if fault.Fails? {
        Go(q, Answered(Unavailable), before, fault, jti, fam, reached);
      } else if record.None? {
        Go(q, Reused(t), before, fault, jti, fam, reached);
      } else {
        Go(q, Taken(t, record.value), before, fault, jti, fam, reached);
      }
    }

    /** The token was used before: the whole family is revoked. */
    method RevokeFamily(q: Req, t: Token, fault: Fault, ghost reached: iset<State>) returns (reply: Reply)
      requires Runs(q, Reused(t), reached)
      modifies this`s
      ensures Runs(q, Answered(reply), reached) && !reply.Pair?
      ensures if fault.Works? then reply.Unauthorized? && t.fam in s.revoked else reply.Unavailable?
    {
      ghost var before := s;
      ghost var jti, fam := FreshIdsExist(s.issued);
      RedisRevoke(t.fam, fault);
      reply := if fault.Fails? then Unavailable else Unauthorized;
      Go(q, Answered(reply), before, fault, jti, fam, reached);
    }

    /** EXISTS and the comparison of the record with the claims. */
    method CheckFamily(q: Req, t: Token, record: Record, fault: Fault, ghost reached: iset<State>)
      returns (refused: Option<Reply>)
      requires Runs(q, Taken(t, record), reached)
      modifies this`s
      ensures refused.Some? ==> Runs(q, Answered(refused.value), reached) && !refused.value.Pair?
      ensures refused.Some? && fault.Works? ==> refused.value.Unauthorized?
      ensures fault.Fails? ==> refused.Some?
      ensures fault.Works? ==> (refused.None? <==> t.fam !in old(s).revoked && record.fam == t.fam && record.uid == t.uid)
      ensures s.users == old(s).users
      ensures refused.None? ==> Runs(q, Checked(t), reached)
      ensures refused.None? && Doomed(old(s), Taken(t, record)) ==> Doomed(s, Checked(t))
    {
      ghost var before := s;
      ghost var jti, fam := FreshIdsExist(s.issued);
      var revoked := t.fam in s.revoked;
      if fault.Fails? {
        refused := Some(Unavailable);
      } else if revoked || record.fam != t.fam || record.uid != t.uid {
        refused := Some(Unauthorized);
      } else {
        refused := None;
      }
      Go(q, if refused.Some? then Answered(refused.value) else Checked(t), before, fault, jti, fam, reached);
    }

    /** load_token_user. */
    method LoadAccount(q: Req, t: Token, fault: Fault, ghost reached: iset<State>) returns (refused: Option<Reply>)
      requires Runs(q, Checked(t), reached)
      modifies this`s
      ensures refused.Some? ==> Runs(q, Answered(refused.value), reached) && !refused.value.Pair?
      ensures refused.Some? && fault.Works? ==> refused.value.Unauthorized?
      ensures fault.Fails? ==> refused.Some?
      ensures fault.Works? ==> (refused.None? <==> HasAccount(old(s), t))
      ensures refused.None? ==> Runs(q, Loaded(t), reached) && !Doomed(old(s), Checked(t))
    {
      ghost var before := s;
      ghost var jti, fam := FreshIdsExist(s.issued);
      var current := t.uid in s.users && s.users[t.uid].active && s.users[t.uid].version == t.ver;
      refused := if fault.Fails? then Some(Unavailable) else if current then None else Some(Unauthorized);
      Go(q, if refused.Some? then Answered(refused.value) else Loaded(t), before, fault, jti, fam, reached);
    }

    /** From the record to the new pair. */
    method Exchange(q: Req, t: Token, record: Record, faults: seq<Fault>, ghost reached: iset<State>)
      returns (reply: Reply)
      requires |faults| == 4 && Runs(q, Taken(t, record), reached)
      modifies this
      ensures Runs(q, Answered(reply), reached)
      ensures reply.Pair? ==> reply.t.fam == t.fam && reply.t.uid == t.uid && reply.t.ver == t.ver && reply.spent == Some(t.jti)
      ensures AllWork(faults) ==> reply.Pair? || reply.Unauthorized?
      ensures reply.Pair? ==> !Doomed(old(s), Taken(t, record))
      ensures AllWork(faults) && old(others) == [] ==>
        (reply.Pair? <==> t.fam !in old(s).revoked && record == Record(t.uid, t.fam) && HasAccount(old(s), t))
      ensures reply.Pair? ==> reply.t.jti in s.stored && s.stored[reply.t.jti] == Record(t.uid, t.fam)
    {
      var refused := CheckFamily(q, t, record, faults[1], reached);
      if refused.Some? {
        return refused.value;
      }
      Await(q, Checked(t), reached);
      refused := LoadAccount(q, t, faults[2], reached);
      if refused.Some? {
        return refused.value;
      }
      Await(q, Loaded(t), reached);
      reply := StorePair(q, t, faults[3], reached);
    }

    /** _issue_pair with store_required: 503 when the SET failed. */
    method StorePair(q: Req, t: Token, fault: Fault, ghost reached: iset<State>) returns (reply: Reply)
      requires Runs(q, Loaded(t), reached)
      modifies this`s
      ensures Runs(q, Answered(reply), reached)
      ensures reply.Pair? ==> reply.t.fam == t.fam && reply.t.uid == t.uid && reply.t.ver == t.ver && reply.spent == Some(t.jti)
      ensures fault.Works? ==> reply.Pair?
      ensures reply.Pair? ==> NewJti(old(s), reply.t.jti) && s.stored == old(s).stored[reply.t.jti := Record(t.uid, t.fam)]
    {
      ghost var before := s;
      var jti, fam := NewUuids();
      var next := Token(jti, t.fam, t.uid, t.ver);
      IssuePair(next, fault);
      reply := if fault.Fails? then Unavailable else Pair(next, Some(t.jti));
      Go(q, Answered(reply), before, fault, jti, fam, reached);
    }

    /** logout: the family's mark. */
    method MarkFamily(q: Req, t: Token, fault: Fault, ghost reached: iset<State>)
      requires Runs(q, Leaving(t), reached)
      modifies this`s
      ensures Runs(q, if fault.Fails? then Answered(Unavailable) else Marked(t), reached)
      ensures fault.Works? ==> t.fam in s.revoked
    {
      ghost var before := s;
      ghost var jti, fam := FreshIdsExist(s.issued);
      RedisRevoke(t.fam, fault);
      Go(q, if fault.Fails? then Answered(Unavailable) else Marked(t), before, fault, jti, fam, reached);
    }

    /** logout: the token's own key. */
    method DropKey(q: Req, t: Token, fault: Fault, ghost reached: iset<State>) returns (reply: Reply)
      requires Runs(q, Marked(t), reached)
      modifies this`s
      ensures Runs(q, Answered(reply), reached) && s.revoked == old(s).revoked
      ensures reply == if fault.Fails? then Unavailable else NoContent
      ensures reply.NoContent? ==> t.jti !in s.stored
    {
      ghost var before := s;
      ghost var jti, fam := FreshIdsExist(s.issued);
      RedisDelete(t.jti, fault);
      reply := if fault.Fails? then Unavailable else NoContent;
      Go(q, Answered(reply), before, fault, jti, fam, reached);
    }

    /** POST /auth/logout with a signed token. */
    method Logout(q: Req, t: Token, faults: seq<Fault>, ghost reached: iset<State>) returns (reply: Reply)
      requires |faults| == 2 && Closed(reached) && s in reached && Inv(s)
      requires q !in s.requests && t in s.issued
      modifies this
      ensures Runs(q, Answered(reply), reached) && !reply.Pair?
      ensures reply.NoContent? ==> t.fam in s.revoked && t.jti !in s.stored
      ensures AllWork(faults) ==> reply.NoContent?
    {
      StepKeepsInv(s, StartLogout(q, t));
      s := To(s, q, Leaving(t));
      Await(q, Leaving(t), reached);
      MarkFamily(q, t, faults[0], reached);
      if faults[0].Fails? {
        return Unavailable;
      }
      Await(q, Marked(t), reached);
      reply := DropKey(q, t, faults[1], reached);
    }

    /** _lock_user and the checks made under the lock. */
    method LockRow(q: Req, uid: User, ver: nat, change: Change, fault: Fault, ghost reached: iset<State>)
      returns (refused: Option<Reply>)
      requires Runs(q, Changing(uid, ver, change), reached) && uid !in s.locks
      modifies this`s
      ensures refused.Some? ==> Runs(q, Answered(refused.value), reached) && !refused.value.Pair?
      ensures refused.Some? && fault.Works? ==> refused.value.Unauthorized? && !Current(old(s), uid, ver)
      ensures refused.None? ==> Runs(q, ChangeLocked(uid, ver, change), reached)
      ensures refused.None? ==> Current(old(s), uid, ver) && s.users == old(s).users
    {
      ghost var before := s;
      ghost var jti, fam := FreshIdsExist(s.issued);
      var current := uid in s.users && s.users[uid].active && s.users[uid].version == ver;
      refused := if fault.Fails? then Some(Unavailable) else if current then None else Some(Unauthorized);
      if refused.None? {
        s := s.(locks := s.locks[uid := q]);
      }
      Go(q, if refused.Some? then Answered(refused.value) else ChangeLocked(uid, ver, change),
         before, fault, jti, fam, reached);
    }

    /** Under the row lock: the current password, the policy, then the new password and the next version. */
    method CommitPassword(q: Req, uid: User, ver: nat, change: Change, fault: Fault, ghost reached: iset<State>)
      returns (refused: Option<Reply>)
      requires Runs(q, ChangeLocked(uid, ver, change), reached)
      modifies this`s
      ensures uid in old(s).users && old(s).users[uid].version == ver
      ensures refused.Some? ==> Runs(q, Answered(refused.value), reached) && !refused.value.Pair?
      ensures fault.Works? && old(s).users[uid].password != change.current ==> refused == Some(Unauthorized)
      ensures fault.Works? && old(s).users[uid].password == change.current && !change.allowed ==> refused == Some(Rejected)
      ensures fault.Works? && refused.Some? ==> s.users == old(s).users && uid !in s.locks
      ensures refused.None? ==>
        && Runs(q, Authenticated(uid, ver + 1), reached)
        && old(s).users[uid].password == change.current && change.allowed
        && s.users == old(s).users[uid := old(s).users[uid].(version := ver + 1, password := change.new_)]
      ensures refused.None? <==> fault.Works? && Accepts(old(s), uid, change)
    {
      assert LockOk(s, q, s.requests[q]);
      ghost var before := s;
      ghost var jti, fam := FreshIdsExist(s.issued);
      var account := s.users[uid];
      s := s.(locks := s.locks - {uid});
      if account.password != change.current {
        refused := Some(Unauthorized);
      } else if !change.allowed {
        refused := Some(Rejected);
      } else {
        refused := None;
        if Happens(fault) {
          s := s.(users := s.users[uid := account.(password := change.new_, version := account.version + 1)]);
        }
      }
      refused := if fault.Fails? then Some(Unavailable) else refused;
      Go(q, if refused.Some? then Answered(refused.value) else Authenticated(uid, ver + 1),
         before, fault, jti, fam, reached);
    }

    /** _issue_pair of login and change-password: a new family, whatever the SET did. */
    method StoreNewFamily(q: Req, uid: User, ver: nat, fault: Fault, ghost reached: iset<State>) returns (reply: Reply)
      requires Runs(q, Authenticated(uid, ver), reached)
      modifies this`s
      ensures Runs(q, Answered(reply), reached)
      ensures reply.Pair? && reply.t.uid == uid && reply.t.ver == ver && reply.spent.None?
      ensures NewFamily(old(s), reply.t.fam)
      ensures fault.Works? ==> s.stored == old(s).stored[reply.t.jti := Record(uid, reply.t.fam)]
    {
      ghost var before := s;
      var jti, fam := NewUuids();
      var next := Token(jti, fam, uid, ver);
      IssuePair(next, fault);
      reply := Pair(next, None);
      Go(q, Answered(reply), before, fault, jti, fam, reached);
    }

    method WriteAndAnswer(q: Req, uid: User, ver: nat, change: Change, faults: seq<Fault>, ghost reached: iset<State>)
      returns (reply: Reply)
      requires |faults| == 3 && Runs(q, ChangeLocked(uid, ver, change), reached)
      modifies this
      ensures Runs(q, Answered(reply), reached)
      ensures reply.Pair? ==> reply.t.ver == ver + 1
      ensures reply.Pair? ==> uid in old(s).users && old(s).users[uid].password == change.current && change.allowed
      ensures AllWork(faults) ==> (reply.Pair? <==> Accepts(old(s), uid, change))
      ensures AllWork(faults) ==> reply.Pair? || reply.Unauthorized? || reply.Rejected?
    {
      assert LockOk(s, q, s.requests[q]);
      Await(q, ChangeLocked(uid, ver, change), reached);
      assert LockOk(s, q, s.requests[q]);
      var refused := CommitPassword(q, uid, ver, change, faults[1], reached);
      if refused.Some? {
        return refused.value;
      }
      Await(q, Authenticated(uid, ver + 1), reached);
      reply := StoreNewFamily(q, uid, ver + 1, faults[2], reached);
    }

    /** The request has its turn on the row. */
    method LockAndChange(q: Req, uid: User, ver: nat, change: Change, faults: seq<Fault>, ghost reached: iset<State>)
      returns (reply: Reply)
      requires |faults| == 3 && Runs(q, Changing(uid, ver, change), reached) && uid !in s.locks
      modifies this
      ensures Runs(q, Answered(reply), reached)
      ensures reply.Pair? ==>
        && reply.t.ver == ver + 1 && Current(old(s), uid, ver)
        && old(s).users[uid].password == change.current && change.allowed
      ensures AllWork(faults) ==> (reply.Pair? <==> MayChange(old(s), uid, ver, change))
      ensures AllWork(faults) ==> reply.Pair? || reply.Unauthorized? || reply.Rejected?
    {
      var refused := LockRow(q, uid, ver, change, faults[0], reached);
      if refused.Some? {
        return refused.value;
      }
      reply := WriteAndAnswer(q, uid, ver, change, faults, reached);
    }

    /** POST /auth/change-password behind its throttle: waits for the row, then changes or refuses. */
    method ChangePassword(q: Req, uid: User, ver: nat, change: Change, faults: seq<Fault>, ghost reached: iset<State>)
      returns (reply: Option<Reply>)
      requires |faults| == 3 && Closed(reached) && s in reached && Inv(s) && q !in s.requests
      modifies this
      // No answer only while the row stays locked, to the end of what the others do.
      ensures reply.None? ==> Runs(q, Changing(uid, ver, change), reached) && uid in s.locks && others == []
      ensures reply.Some? ==> Runs(q, Answered(reply.value), reached)
      ensures reply.Some? && reply.value.Pair? ==>
        reply.value.t.ver == ver + 1 && !Outdated(old(s), uid, ver) && change.allowed
      // The holder of an access token of this version also knows its password.
      ensures reply.Some? && reply.value.Pair? && uid in old(s).users && old(s).users[uid].version == ver ==>
        old(s).users[uid].password == change.current
      ensures reply.Some? && AllWork(faults) ==>
        reply.value.Pair? || reply.value.Unauthorized? || reply.value.Rejected?
      ensures AllWork(faults) && old(others) == [] && uid !in old(s).locks ==>
        reply.Some? && (reply.value.Pair? <==> MayChange(old(s), uid, ver, change))
    {
      StepKeepsInv(s, StartChange(q, uid, ver, change));
      s := To(s, q, Changing(uid, ver, change));
      Await(q, Changing(uid, ver, change), reached);
      // SELECT ... FOR UPDATE waits for the holder of the row.
      while uid in s.locks && others != []
        invariant Runs(q, Changing(uid, ver, change), reached)
        invariant Outdated(old(s), uid, ver) ==> Doomed(s, Changing(uid, ver, change))
        invariant AccountsStay(old(s), s)
        invariant old(others) == [] ==> others == [] && s.users == old(s).users && s.locks == old(s).locks
        decreases |others|
      {
        ghost var before := s;
        Await(q, Changing(uid, ver, change), reached);
        AccountsStayByBoth(old(s), before, s);
      }
      if uid in s.locks {
        return None;
      }
      var answer := LockAndChange(q, uid, ver, change, faults, reached);
      reply := Some(answer);
    }
  }
}
