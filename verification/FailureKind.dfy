/** Which failures of the listener are about the message itself: _sqlstate and is_retryable. */
module FailureKind {
  import opened Prelude

  type ErrorId = nat

  datatype Kind = PermanentMessage | RedisWrongType | OtherKind

  /** An exception with the links Python keeps; the links may form a cycle. */
  datatype Error = Error(kind: Kind, sqlstate: Option<string>, orig: Option<ErrorId>, cause: Option<ErrorId>)

  ghost predicate Closed(errors: map<ErrorId, Error>) {
    forall e <- errors :: Next(errors[e]).Some? ==> Next(errors[e]).value in errors
  }

  /** getattr(cur, "orig", None) or cur.__cause__ */
  function Next(e: Error): Option<ErrorId> {
    if e.orig.Some? then e.orig else e.cause
  }

  predicate HasState(e: Error) {
    e.sqlstate.Some? && e.sqlstate.value != ""
  }

  /** The n-th exception of the chain, if the chain is that long. */
  function Link(errors: map<ErrorId, Error>, exc: ErrorId, n: nat): Option<ErrorId> {
    if n == 0 then Some(exc)
    else
      var before := Link(errors, exc, n - 1);
      if before.Some? && before.value in errors then Next(errors[before.value]) else None
  }

  ghost predicate Stateless(errors: map<ErrorId, Error>, link: Option<ErrorId>) {
    link.Some? && link.value in errors ==> !HasState(errors[link.value])
  }

  /** The n-th exception is the first of the chain that carries a SQLSTATE. */
  ghost predicate FirstAt(errors: map<ErrorId, Error>, exc: ErrorId, n: nat) {
    && Link(errors, exc, n).Some? && Link(errors, exc, n).value in errors
    && HasState(errors[Link(errors, exc, n).value])
    && forall m: nat :: m < n ==> Stateless(errors, Link(errors, exc, m))
  }

  function StateAt(errors: map<ErrorId, Error>, exc: ErrorId, n: nat): string
    requires Link(errors, exc, n).Some? && Link(errors, exc, n).value in errors
    requires HasState(errors[Link(errors, exc, n).value])
  {
    errors[Link(errors, exc, n).value].sqlstate.value
  }

  lemma {:induction false} NothingAfterEnd(errors: map<ErrorId, Error>, exc: ErrorId, k: nat, n: nat)
    requires Link(errors, exc, k).None? && k <= n
    ensures Link(errors, exc, n).None?
  {
    if k < n {
      NothingAfterEnd(errors, exc, k, n - 1);
    }
  }

  /** Once the chain returns to an earlier link it never leaves the links seen so far. */
  lemma {:induction false} CycleStaysSeen(errors: map<ErrorId, Error>, exc: ErrorId, back: nat, k: nat, n: nat)
    requires back < k && Link(errors, exc, back) == Link(errors, exc, k)
    ensures exists m :: 0 <= m < k && Link(errors, exc, n) == Link(errors, exc, m)
  {
    if n < k {
      assert Link(errors, exc, n) == Link(errors, exc, n);
    } else if n == k {
      assert Link(errors, exc, n) == Link(errors, exc, back);
    } else {
      CycleStaysSeen(errors, exc, back, k, n - 1);
      var m :| 0 <= m < k && Link(errors, exc, n - 1) == Link(errors, exc, m);
      assert Link(errors, exc, n) == Link(errors, exc, m + 1);
      if m + 1 == k {
        assert Link(errors, exc, n) == Link(errors, exc, back);
      }
    }
  }

  /** The first SQLSTATE along the chain, also when the chain is a cycle. */
  method Sqlstate(errors: map<ErrorId, Error>, exc: ErrorId) returns (state: Option<string>)
    requires Closed(errors) && exc in errors
    ensures state.Some? ==> exists n: nat :: FirstAt(errors, exc, n) && state == Some(StateAt(errors, exc, n))
    ensures state.None? ==> forall n: nat :: Stateless(errors, Link(errors, exc, n))
  {
    var seen: set<ErrorId> := {};
    var cur := Some(exc);
    ghost var k: nat := 0;
    while cur.Some? && cur.value !in seen
      invariant cur == Link(errors, exc, k) && (cur.Some? ==> cur.value in errors)
      invariant seen <= errors.Keys
      invariant forall m: nat :: m < k ==> Stateless(errors, Link(errors, exc, m))
      invariant forall e <- seen :: exists m: nat :: m < k && Link(errors, exc, m) == Some(e)
      decreases errors.Keys - seen
    {
      var e := errors[cur.value];
      if HasState(e) {
        assert FirstAt(errors, exc, k);
        return e.sqlstate;
      }
      seen := seen + {cur.value};
      cur := Next(e);
      k := k + 1;
    }
    forall n: nat ensures Stateless(errors, Link(errors, exc, n)) {
      if cur.Some? {
        var back: nat :| back < k && Link(errors, exc, back) == cur;
        CycleStaysSeen(errors, exc, back, k, n);
      } else if n >= k {
        NothingAfterEnd(errors, exc, k, n);
      }
    }
    state := None;
  }

  /** SQLSTATE classes 22 and 23: the data of this message. */
  predicate AboutTheData(state: string) {
    |state| >= 2 && state[..2] in {"22", "23"}
  }

  /** The class of a state, digit by digit: 22 is a data exception, 23 an integrity violation. */
  lemma DataClasses(state: string)
    ensures AboutTheData(state) <==> |state| >= 2 && state[0] == '2' && (state[1] == '2' || state[1] == '3')
  {
    if |state| >= 2 {
      assert state[..2] == [state[0], state[1]];
    }
  }

  /** From each exception the chain goes to the one it wraps, and only without that to its cause. */
  lemma ChainGoesOn(errors: map<ErrorId, Error>, exc: ErrorId, n: nat, e: ErrorId)
    requires Link(errors, exc, n) == Some(e) && e in errors
    ensures Link(errors, exc, 0) == Some(exc)
    ensures errors[e].orig.Some? ==> Link(errors, exc, n + 1) == errors[e].orig
    ensures errors[e].orig.None? ==> Link(errors, exc, n + 1) == errors[e].cause
  {
  }

  /** The first state is a text that is not empty, and no earlier exception has one. */
  lemma FirstStateMeans(errors: map<ErrorId, Error>, exc: ErrorId, n: nat)
    requires FirstAt(errors, exc, n)
    ensures errors[Link(errors, exc, n).value].sqlstate == Some(StateAt(errors, exc, n)) && StateAt(errors, exc, n) != ""
    ensures forall m: nat {:trigger Link(errors, exc, m)} ::
      m < n && Link(errors, exc, m).Some? && Link(errors, exc, m).value in errors ==>
        errors[Link(errors, exc, m).value].sqlstate in {None, Some("")}
  {
    forall m: nat | m < n ensures Stateless(errors, Link(errors, exc, m)) {
    }
  }

  /** A failure of the data is not worth a retry; every other state is. */
  predicate AboutMessage(state: string) {
    |state| >= 2 && state[0] == '2' && (state[1] == '2' || state[1] == '3')
  }

  lemma RetryableByState(errors: map<ErrorId, Error>, exc: ErrorId, n: nat)
    requires exc in errors && FirstAt(errors, exc, n)
    ensures Retryable(errors, exc) <==> errors[exc].kind != PermanentMessage && !AboutMessage(StateAt(errors, exc, n))
  {
    DataClasses(StateAt(errors, exc, n));
    forall m: nat | FirstAt(errors, exc, m) ensures m == n {
      FirstIsUnique(errors, exc, m, n);
    }
  }

  lemma FirstIsUnique(errors: map<ErrorId, Error>, exc: ErrorId, m: nat, n: nat)
    requires FirstAt(errors, exc, m) && FirstAt(errors, exc, n)
    ensures m == n
  {
    assert Stateless(errors, Link(errors, exc, Min(m, n))) || m == n;
  }

  /** Nothing shows that the failure is about the message. */
  ghost predicate Retryable(errors: map<ErrorId, Error>, exc: ErrorId)
    requires exc in errors
  {
    && errors[exc].kind != PermanentMessage
    && (forall n: nat :: FirstAt(errors, exc, n) ==> !AboutTheData(StateAt(errors, exc, n)))
    && (errors[exc].kind == RedisWrongType ==> exists n: nat :: FirstAt(errors, exc, n))
  }

  /** A failure is dead-lettered exactly when it is provably about the message. */
  method IsRetryable(errors: map<ErrorId, Error>, exc: ErrorId) returns (retry: bool)
    requires Closed(errors) && exc in errors
    ensures retry <==> Retryable(errors, exc)
    ensures errors[exc].kind == PermanentMessage ==> !retry
    // With a state: exactly the classes 22 and 23 are not retried.
    ensures forall n: nat :: FirstAt(errors, exc, n) && errors[exc].kind != PermanentMessage ==>
      var state := StateAt(errors, exc, n);
      (!retry <==> |state| >= 2 && state[0] == '2' && (state[1] == '2' || state[1] == '3'))
    // Without one: only Redis's WRONGTYPE.
    ensures (forall n: nat :: !FirstAt(errors, exc, n)) ==> (retry <==> errors[exc].kind == OtherKind)
  {
    forall n: nat | FirstAt(errors, exc, n)
      ensures Retryable(errors, exc) <==> errors[exc].kind != PermanentMessage && !AboutMessage(StateAt(errors, exc, n))
    {
      RetryableByState(errors, exc, n);
    }
    if errors[exc].kind == PermanentMessage {
      return false;
    }
    var state := Sqlstate(errors, exc);
    if state.Some? {
      ghost var first: nat :| FirstAt(errors, exc, first) && state == Some(StateAt(errors, exc, first));
      forall n: nat | FirstAt(errors, exc, n) ensures n == first {
        FirstIsUnique(errors, exc, first, n);
      }
      return !AboutTheData(state.value);
    }
    assert forall n: nat :: Stateless(errors, Link(errors, exc, n));
    retry := errors[exc].kind != RedisWrongType;
  }
}
