/** What every interleaving of the session endpoints keeps. */
module SessionLaws {
  import opened Prelude
  import opened SessionServer

  // ---- the invariant is kept -----------------------------------------------------------------

  lemma SameTokens(s: State, s': State)
    requires TokensOk(s) && s'.stored == s.stored && s'.issued == s.issued && s'.hits == s.hits
    ensures TokensOk(s')
  {
    forall jti <- s'.stored ensures Signed(s', jti, s'.stored[jti]) {
      assert Signed(s, jti, s.stored[jti]);
    }
    forall jti <- s'.hits ensures !NewJti(s', jti) {
      assert !NewJti(s, jti);
    }
  }

  /** What was found of other requests stays true when the histories only grow. */
  lemma OthersStayOk(s: State, s': State, q: Req)
    requires RequestsOk(s) && q in s'.requests && s'.requests == s.requests[q := s'.requests[q]]
    requires s.issued <= s'.issued
    requires forall jti <- s.hits :: jti in s'.hits && s'.hits[jti] == s.hits[jti]
    requires RequestOk(s', q, s'.requests[q])
    ensures RequestsOk(s')
  {
    forall q' <- s'.requests ensures RequestOk(s', q', s'.requests[q']) {
      if q' != q {
        assert RequestOk(s, q', s.requests[q']);
      }
    }
  }

  lemma LocksStay(s: State, s': State, q: Req)
    requires LocksOk(s) && s'.users == s.users && s'.locks == s.locks
    requires q in s'.requests && s'.requests == s.requests[q := s'.requests[q]]
    requires q in s.requests ==> !s.requests[q].ChangeLocked? && !s.requests[q].UpdateLocked?
    requires !s'.requests[q].ChangeLocked? && !s'.requests[q].UpdateLocked?
    ensures LocksOk(s')
  {
  }

  lemma StartKeepsInv(s: State, a: Action)
    requires Inv(s) && Enabled(s, a) && !a.Advance?
    ensures Inv(Do(s, a))
  {
    var s' := Do(s, a);
    SameTokens(s, s');
    OthersStayOk(s, s', a.q);
    LocksStay(s, s', a.q);
    forall h, fam | Holds(s', h, fam) ensures Holds(s, h, fam) {
    }
  }

  /** The record found under a presented token is that token's own record. */
  lemma RecordIsOwn(s: State, t: Token)
    requires TokensOk(s) && t in s.issued && t.jti in s.stored
    ensures s.stored[t.jti] == Record(t.uid, t.fam)
  {
    assert Signed(s, t.jti, s.stored[t.jti]);
  }

  lemma HitKeepsTokens(s: State, s': State, jti: Jti, q: Req)
    requires TokensOk(s) && jti in s.stored
    requires s'.stored == s.stored - {jti} && s'.hits == s.hits[jti := q] && s'.issued == s.issued
    ensures TokensOk(s')
  {
    assert Signed(s, jti, s.stored[jti]);
    forall j <- s'.stored ensures Signed(s', j, s'.stored[j]) && j !in s'.hits {
      assert Signed(s, j, s.stored[j]);
    }
    forall j <- s'.hits ensures !NewJti(s', j) {
      if j == jti {
        var t :| t in s.issued && t.jti == jti;
      } else {
        var t :| t in s.issued && t.jti == j;
      }
    }
  }

  /** GETDEL found the record: the key goes, the request carries it, or loses it in a fault. */
  predicate HitMove(s: State, s': State, q: Req, t: Token) {
    && q in s.requests && s.requests[q] == Presented(t) && t.jti in s.stored && q in s'.requests
    && s' == GetDel(s, q, t.jti).(requests := s.requests[q := s'.requests[q]])
    && (s'.requests[q] == Answered(Unavailable) || s'.requests[q] == Taken(t, s.stored[t.jti]))
  }

  lemma HolderBefore(s: State, s': State, q: Req, t: Token, h: Holder, fam: Family)
    requires Inv(s) && HitMove(s, s', q, t) && Holds(s', h, fam)
    ensures h == Carried(q) ==> fam == t.fam
    ensures h != Carried(q) ==> Holds(s, h, fam) && h != InStore(t.jti)
  {
  }

  lemma HitKeepsOneHolder(s: State, s': State, q: Req, t: Token)
    requires Inv(s) && HitMove(s, s', q, t)
    ensures OneHolder(s')
  {
    assert RequestOk(s, q, s.requests[q]);
    RecordIsOwn(s, t);
    assert Holds(s, InStore(t.jti), t.fam);
    forall h, h', fam | Holds(s', h, fam) && Holds(s', h', fam) ensures h == h' {
      HolderBefore(s, s', q, t, h, fam);
      HolderBefore(s, s', q, t, h', fam);
    }
  }

  lemma HitKeepsInv(s: State, s': State, q: Req, t: Token)
    requires Inv(s) && HitMove(s, s', q, t)
    ensures Inv(s')
  {
    assert RequestOk(s, q, s.requests[q]);
    HitKeepsTokens(s, s', t.jti, q);
    HitKeepsOneHolder(s, s', q, t);
    OthersStayOk(s, s', q);
    LocksStay(s, s', q);
  }

  predicate QuietMove(p: Phase, p': Phase) {
    && !p.ChangeLocked? && !p.UpdateLocked? && !p'.ChangeLocked? && !p'.UpdateLocked?
    && (InFlight(p') ==> InFlight(p) && p'.t == p.t)
    && (HasToken(p') ==> HasToken(p) && p'.t == p.t)
    && (p'.Answered? ==> !p'.reply.Pair?)
  }

  /** Steps that neither sign a token nor touch the refresh keys. */
  lemma QuietKeepsInv(s: State, s': State, q: Req)
    requires Inv(s) && q in s.requests && q in s'.requests
    requires s'.stored == s.stored && s'.issued == s.issued && s'.hits == s.hits
    requires s'.users == s.users && s'.locks == s.locks
    requires s'.requests == s.requests[q := s'.requests[q]]
    requires QuietMove(s.requests[q], s'.requests[q])
    ensures Inv(s')
  {
    SameTokens(s, s');
    assert RequestOk(s, q, s.requests[q]);
    OthersStayOk(s, s', q);
    LocksStay(s, s', q);
    forall h, fam | Holds(s', h, fam) ensures Holds(s, h, fam) {
    }
  }

  /** Logout's DEL only removes a holder. */
  lemma DeleteKeepsInv(s: State, s': State, q: Req, jti: Jti)
    requires Inv(s) && q in s.requests && s.requests[q].Marked?
    requires s' == s.(stored := s'.stored, requests := s'.requests)
    requires s'.stored == s.stored - {jti} || s'.stored == s.stored
    requires q in s'.requests && s'.requests == s.requests[q := s'.requests[q]]
    requires s'.requests[q].Answered? && !s'.requests[q].reply.Pair?
    ensures Inv(s')
  {
    OthersStayOk(s, s', q);
    LocksStay(s, s', q);
    forall j <- s'.stored ensures Signed(s', j, s'.stored[j]) {
      assert Signed(s, j, s.stored[j]);
    }
    forall j <- s'.hits ensures !NewJti(s', j) {
      assert !NewJti(s, j);
    }
    forall h, fam | Holds(s', h, fam) ensures Holds(s, h, fam) {
    }
  }

  lemma IssueKeepsTokens(s: State, t: Token, fault: Fault)
    requires TokensOk(s) && NewJti(s, t.jti)
    ensures TokensOk(Issue(s, t, fault))
  {
    var s' := Issue(s, t, fault);
    forall j <- s'.stored ensures Signed(s', j, s'.stored[j]) && j !in s'.hits {
      IssueKeepsSigned(s, t, fault, j);
    }
    IssueOnlySigns(s, t, fault);
    forall j <- s'.hits ensures !NewJti(s', j) {
      var t' :| t' in s.issued && t'.jti == j;
      assert t' in s'.issued;
    }
  }

  lemma IssueKeepsSigned(s: State, t: Token, fault: Fault, j: Jti)
    requires TokensOk(s) && NewJti(s, t.jti) && j in Issue(s, t, fault).stored
    ensures Signed(Issue(s, t, fault), j, Issue(s, t, fault).stored[j]) && j !in s.hits
  {
    var s' := Issue(s, t, fault);
    if j == t.jti {
      assert t in s'.issued;
    } else {
      assert Signed(s, j, s.stored[j]);
    }
  }

  lemma IssueOnlySigns(s: State, t: Token, fault: Fault)
    ensures var s' := Issue(s, t, fault);
      s'.issued == s.issued + {t} && s'.hits == s.hits && s'.users == s.users && s'.locks == s.locks
  {
  }

  lemma NewFamilyUnheld(s: State, h: Holder, fam: Family)
    requires TokensOk(s) && RequestsOk(s) && NewFamily(s, fam)
    ensures !Holds(s, h, fam)
  {
    if h.InStore? && h.jti in s.stored {
      assert Signed(s, h.jti, s.stored[h.jti]);
    }
  }

  /** _issue_pair replaces this request's hold by a stored key, or starts a family. */
  ghost predicate IssueMove(s: State, s': State, q: Req, t: Token, fault: Fault) {
    && q in s.requests && q in s'.requests && NewJti(s, t.jti)
    && s' == Issue(s, t, fault).(requests := s.requests[q := s'.requests[q]])
    && (|| (s.requests[q].Loaded? && s.requests[q].t.fam == t.fam)
        || (s.requests[q].Authenticated? && NewFamily(s, t.fam)))
    && var p' := s'.requests[q];
       p'.Answered? && (p'.reply.Pair? ==>
         p'.reply.t == t && p'.reply.spent == if s.requests[q].Loaded? then Some(s.requests[q].t.jti) else None)
  }

  lemma IssueKeepsOneHolder(s: State, s': State, q: Req, t: Token, fault: Fault)
    requires Inv(s) && IssueMove(s, s', q, t, fault)
    ensures OneHolder(s')
  {
    forall h, fam | Holds(s', h, fam) && h != InStore(t.jti) ensures Holds(s, h, fam) && h != Carried(q) {
    }
    forall h | Holds(s, h, t.fam) ensures h == Carried(q) {
      if s.requests[q].Loaded? {
        assert Holds(s, Carried(q), t.fam);
      } else {
        NewFamilyUnheld(s, h, t.fam);
      }
    }
  }

  lemma IssueKeepsRequests(s: State, s': State, q: Req, t: Token, fault: Fault)
    requires RequestsOk(s) && IssueMove(s, s', q, t, fault)
    ensures RequestsOk(s')
  {
    assert RequestOk(s, q, s.requests[q]);
    IssueOnlySigns(s, t, fault);
    OthersStayOk(s, s', q);
  }

  lemma IssueKeepsInv(s: State, s': State, q: Req, t: Token, fault: Fault)
    requires Inv(s) && IssueMove(s, s', q, t, fault)
    ensures Inv(s')
  {
    IssueKeepsTokens(s, t, fault);
    SameTokens(Issue(s, t, fault), s');
    IssueKeepsOneHolder(s, s', q, t, fault);
    IssueKeepsRequests(s, s', q, t, fault);
    IssueOnlySigns(s, t, fault);
    LocksStay(s, s', q);
  }

  /** Steps of the account endpoints: only rows, locks and one request change. */
  lemma AccountStepKeepsInv(s: State, s': State, q: Req)
    requires Inv(s) && LocksOk(s') && q in s.requests
    requires AccountMove(s, s', q)
    ensures Inv(s')
  {
    SameTokens(s, s');
    OthersStayOk(s, s', q);
    forall h, fam | Holds(s', h, fam) ensures Holds(s, h, fam) {
    }
  }

  /** A step of one request on the row of one user, which nobody else has locked. */
  lemma RowStepKeepsLocks(s: State, s': State, q: Req, uid: User)
    requires LocksOk(s) && q in s.requests && q in s'.requests
    requires s'.requests == s.requests[q := s'.requests[q]]
    requires s'.locks - {uid} == s.locks - {uid} && s'.users - {uid} == s.users - {uid}
    requires uid in s.locks ==> s.locks[uid] == q
    requires HoldsLock(s.requests[q], uid) || (!s.requests[q].ChangeLocked? && !s.requests[q].UpdateLocked?)
    requires HoldsLock(s'.requests[q], uid) || (!s'.requests[q].ChangeLocked? && !s'.requests[q].UpdateLocked?)
    requires LockOk(s', q, s'.requests[q])
    requires uid in s'.locks ==> s'.locks[uid] == q && HoldsLock(s'.requests[q], uid)
    ensures LocksOk(s')
  {
    forall u <- s'.locks ensures s'.locks[u] in s'.requests && HoldsLock(s'.requests[s'.locks[u]], u) {
      if u != uid {
        assert u in s'.locks - {uid};
        assert s.locks[u] == s'.locks[u] && HoldsLock(s.requests[s.locks[u]], u);
      }
    }
    forall q' <- s'.requests ensures LockOk(s', q', s'.requests[q']) {
      if q' != q {
        var p := s.requests[q'];
        assert LockOk(s, q', p);
        if p.ChangeLocked? || p.UpdateLocked? {
          assert p.uid in s.locks - {uid} && p.uid in s.users - {uid};
          assert p.uid in s'.locks - {uid} && p.uid in s'.users - {uid};
        }
      }
    }
  }

  predicate IsAccountPhase(p: Phase) {
    p.Changing? || p.ChangeLocked? || p.Updating? || p.UpdateLocked?
  }

  predicate AccountMove(s: State, s': State, q: Req) {
    && s' == s.(users := s'.users, locks := s'.locks, requests := s'.requests)
    && q in s'.requests && s'.requests == s.requests[q := s'.requests[q]]
    && !HasToken(s'.requests[q]) && (s'.requests[q].Answered? ==> !s'.requests[q].reply.Pair?)
  }

  /** A request takes the free row of its account. */
  lemma LockingKeepsLocks(s: State, q: Req, fault: Fault, jti: Jti, fam: Family)
    requires LocksOk(s) && q in s.requests && Unblocked(s, s.requests[q])
    requires s.requests[q].Changing? || s.requests[q].Updating?
    ensures LocksOk(DoAdvance(s, q, fault, jti, fam))
  {
    RowStepKeepsLocks(s, DoAdvance(s, q, fault, jti, fam), q, s.requests[q].uid);
  }

  /** A request lets go of its row, with or without a write. */
  lemma UnlockingKeepsLocks(s: State, q: Req, fault: Fault, jti: Jti, fam: Family)
    requires LocksOk(s) && q in s.requests && (s.requests[q].ChangeLocked? || s.requests[q].UpdateLocked?)
    ensures LocksOk(DoAdvance(s, q, fault, jti, fam))
  {
    var p, s' := s.requests[q], DoAdvance(s, q, fault, jti, fam);
    assert LockOk(s, q, p);
    UnlockingShape(s, q, fault, jti, fam);
    RowStepKeepsLocks(s, s', q, p.uid);
  }

  lemma UnlockingShape(s: State, q: Req, fault: Fault, jti: Jti, fam: Family)
    requires q in s.requests && (s.requests[q].ChangeLocked? || s.requests[q].UpdateLocked?)
    requires s.requests[q].uid in s.users
    ensures var p, s' := s.requests[q], DoAdvance(s, q, fault, jti, fam);
      && s'.locks == s.locks - {p.uid} && s'.users - {p.uid} == s.users - {p.uid}
      && q in s'.requests && s'.requests == s.requests[q := s'.requests[q]]
      && !s'.requests[q].ChangeLocked? && !s'.requests[q].UpdateLocked?
  {
  }

  lemma AccountKeepsLocks(s: State, q: Req, fault: Fault, jti: Jti, fam: Family)
    requires LocksOk(s) && q in s.requests && Unblocked(s, s.requests[q]) && IsAccountPhase(s.requests[q])
    ensures LocksOk(DoAdvance(s, q, fault, jti, fam))
  {
    if s.requests[q].Changing? || s.requests[q].Updating? {
      LockingKeepsLocks(s, q, fault, jti, fam);
    } else {
      UnlockingKeepsLocks(s, q, fault, jti, fam);
    }
  }

  lemma AccountKeepsInv(s: State, q: Req, fault: Fault, jti: Jti, fam: Family)
    requires Inv(s) && Enabled(s, Advance(q, fault, jti, fam)) && IsAccountPhase(s.requests[q])
    ensures Inv(DoAdvance(s, q, fault, jti, fam))
  {
    AccountKeepsLocks(s, q, fault, jti, fam);
    AccountStepKeepsInv(s, DoAdvance(s, q, fault, jti, fam), q);
  }

  lemma IssuingKeepsInv(s: State, q: Req, fault: Fault, jti: Jti, fam: Family)
    requires Inv(s) && Enabled(s, Advance(q, fault, jti, fam)) && (s.requests[q].Loaded? || s.requests[q].Authenticated?)
    ensures Inv(DoAdvance(s, q, fault, jti, fam))
  {
    IssueKeepsInv(s, DoAdvance(s, q, fault, jti, fam), q, NextToken(s.requests[q], jti, fam), fault);
  }

  lemma PresentedKeepsInv(s: State, q: Req, fault: Fault, jti: Jti, fam: Family)
    requires Inv(s) && q in s.requests && s.requests[q].Presented?
    ensures Inv(DoAdvance(s, q, fault, jti, fam))
  {
    var t, s' := s.requests[q].t, DoAdvance(s, q, fault, jti, fam);
    if t.jti in s.stored && Happens(fault) {
      HitKeepsInv(s, s', q, t);
    } else {
      QuietKeepsInv(s, s', q);
    }
  }

  lemma MarkedKeepsInv(s: State, q: Req, fault: Fault, jti: Jti, fam: Family)
    requires Inv(s) && q in s.requests && s.requests[q].Marked?
    ensures Inv(DoAdvance(s, q, fault, jti, fam))
  {
    DeleteKeepsInv(s, DoAdvance(s, q, fault, jti, fam), q, s.requests[q].t.jti);
  }

  predicate IsQuietPhase(p: Phase) {
    p.Reused? || p.Taken? || p.Checked? || p.Leaving?
  }

  lemma QuietAdvanceKeepsInv(s: State, q: Req, fault: Fault, jti: Jti, fam: Family)
    requires Inv(s) && q in s.requests && IsQuietPhase(s.requests[q])
    ensures Inv(DoAdvance(s, q, fault, jti, fam))
  {
    QuietKeepsInv(s, DoAdvance(s, q, fault, jti, fam), q);
  }

  lemma AdvanceKeepsInv(s: State, q: Req, fault: Fault, jti: Jti, fam: Family)
    requires Inv(s) && Enabled(s, Advance(q, fault, jti, fam))
    ensures Inv(DoAdvance(s, q, fault, jti, fam))
  {
    var p := s.requests[q];
    if IsAccountPhase(p) {
      AccountKeepsInv(s, q, fault, jti, fam);
    } else if p.Loaded? || p.Authenticated? {
      IssuingKeepsInv(s, q, fault, jti, fam);
    } else if p.Presented? {
      PresentedKeepsInv(s, q, fault, jti, fam);
    } else if p.Marked? {
      MarkedKeepsInv(s, q, fault, jti, fam);
    } else {
      QuietAdvanceKeepsInv(s, q, fault, jti, fam);
    }
  }

  lemma StepKeepsInv(s: State, a: Action)
    requires Inv(s) && Enabled(s, a)
    ensures Inv(Do(s, a))
  {
    match a
    case Advance(q, fault, jti, fam) => AdvanceKeepsInv(s, q, fault, jti, fam);
    case _ => StartKeepsInv(s, a);
  }
}
