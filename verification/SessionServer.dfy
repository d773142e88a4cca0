/**
 * The session endpoints of campaign_manager as a protocol.  Every Redis command
 * and every database statement is one atomic step; requests interleave freely,
 * and each step may fail before or after its effect.
 */
module SessionServer {
  import opened Prelude

  type Jti = nat
  type Family = nat
  type User = nat
  type Req = nat
  type Password = nat

  /** The claims of a signed refresh token. */
  datatype Token = Token(jti: Jti, fam: Family, uid: User, ver: nat)

  datatype Record = Record(uid: User, fam: Family)

  datatype Account = Account(active: bool, role: nat, version: nat, password: Password)

  /** What a password change sends; `allowed` is the verdict of the password policy on it. */
  datatype Change = Change(current: Password, new_: Password, allowed: bool)

  /** `spent` is the refresh token that was exchanged for the pair, if any. */
  datatype Reply =
    | Pair(t: Token, spent: Option<Jti>)
    | Unauthorized | Unavailable | NoContent | Updated | NotFound
    | Rejected                             // the new password breaks the policy

  /** Where a request is. */
  datatype Phase =
    | Presented(t: Token)                  // refresh: before GETDEL
    | Reused(t: Token)                     // GETDEL found nothing
    | Taken(t: Token, record: Record)      // GETDEL found the record
    | Checked(t: Token)                    // family not revoked, record matches
    | Loaded(t: Token)                     // account row active, version matches
    | Authenticated(uid: User, ver: nat)   // login or password change: a new family follows
    | Leaving(t: Token)                    // logout: before SET
    | Marked(t: Token)                     // logout: before DEL
    | Changing(uid: User, ver: nat, change: Change)   // change-password: before the row lock
    | ChangeLocked(uid: User, ver: nat, change: Change)
    | Updating(uid: User, password: Option<Password>, active: Option<bool>, role: Option<nat>)   // update_user
    | UpdateLocked(uid: User, password: Option<Password>, active: Option<bool>, role: Option<nat>)
    | Answered(reply: Reply)

  datatype State = State(
    stored: map<Jti, Record>,       // auth:refresh:*
    revoked: set<Family>,           // auth:refresh_fam_revoked:*
    users: map<User, Account>,
    locks: map<User, Req>,          // rows under SELECT ... FOR UPDATE
    requests: map<Req, Phase>,
    issued: set<Token>,             // every token the server ever signed
    hits: map<Jti, Req>)            // history: which request GETDEL gave a jti's record to

  /** A failing step raises, perhaps after its effect. */
  datatype Fault = Works | Fails(effect: bool)

  datatype Action =
    | StartRefresh(q: Req, t: Token)
    | StartLogout(q: Req, t: Token)
    | Login(q: Req, uid: User)
    | StartChange(q: Req, uid: User, ver: nat, change: Change)
    | StartUpdate(q: Req, uid: User, password: Option<Password>, active: Option<bool>, role: Option<nat>)
    | Advance(q: Req, fault: Fault, jti: Jti, fam: Family)

  predicate NewJti(s: State, jti: Jti) {
    forall t <- s.issued :: t.jti != jti
  }

  predicate NewFamily(s: State, fam: Family) {
    forall t <- s.issued :: t.fam != fam
  }

  /** Tokens are signed: a client can only present one that was issued. */
  predicate Enabled(s: State, a: Action) {
    match a
    case StartRefresh(q, t) => q !in s.requests && t in s.issued
    case StartLogout(q, t) => q !in s.requests && t in s.issued
    case Login(q, uid) => q !in s.requests && uid in s.users && s.users[uid].active
    case StartChange(q, uid, _, _) => q !in s.requests
    case StartUpdate(q, _, _, _, _) => q !in s.requests
    case Advance(q, _, jti, fam) =>
      && q in s.requests && !s.requests[q].Answered?
      && NewJti(s, jti) && NewFamily(s, fam)
      && Unblocked(s, s.requests[q])
  }

  /** A row lock is waited for. */
  predicate Unblocked(s: State, p: Phase) {
    (p.Changing? || p.Updating?) ==> p.uid !in s.locks
  }

  // ---- the steps of each endpoint ------------------------------------------------------------

  predicate Happens(fault: Fault) {
    fault.Works? || fault.effect
  }

  predicate Current(s: State, uid: User, ver: nat) {
    uid in s.users && s.users[uid].active && s.users[uid].version == ver
  }

  /** GETDEL auth:refresh:<jti>. */
  function GetDel(s: State, q: Req, jti: Jti): State {
    if jti in s.stored then s.(stored := s.stored - {jti}, hits := s.hits[jti := q]) else s
  }

  /** SET auth:refresh_fam_revoked:<fam>. */
  function Revoke(s: State, fam: Family): State {
    s.(revoked := s.revoked + {fam})
  }

  /** _issue_pair: sign a token and SET its record. */
  function Issue(s: State, t: Token, fault: Fault): State {
    var s' := s.(issued := s.issued + {t});
    if Happens(fault) then s'.(stored := s'.stored[t.jti := Record(t.uid, t.fam)]) else s'
  }

  /** The checks under the row lock: the current password, then the policy. */
  predicate Accepts(s: State, uid: User, change: Change) {
    uid in s.users && s.users[uid].password == change.current && change.allowed
  }

  /** change-password: new password, next version. */
  function WithPassword(account: Account, password: Password): Account {
    account.(password := password, version := account.version + 1)
  }

  /** update_user: absent fields stay; a new password, status or role makes the issued tokens invalid. */
  function Changed(account: Account, password: Option<Password>, active: Option<bool>, role: Option<nat>): Account {
    var active' := if active.Some? then active.value else account.active;
    var role' := if role.Some? then role.value else account.role;
    var revoke := password.Some? || active' != account.active || role' != account.role;
    Account(active', role', if revoke then account.version + 1 else account.version,
            if password.Some? then password.value else account.password)
  }

  /** Commit (or roll back) and release the row. */
  function Commit(s: State, uid: User, account: Account, fault: Fault): State {
    var s' := s.(locks := s.locks - {uid});
    if Happens(fault) then s'.(users := s.users[uid := account]) else s'
  }

  /** The token that a request signs next. */
  function NextToken(p: Phase, jti: Jti, fam: Family): Token
    requires p.Loaded? || p.Authenticated?
  {
    if p.Loaded? then Token(jti, p.t.fam, p.t.uid, p.t.ver) else Token(jti, fam, p.uid, p.ver)
  }

  /** What the next step of request q, in phase p, does to Redis and to the database. */
  function Effect(s: State, q: Req, p: Phase, fault: Fault, jti: Jti, fam: Family): State {
    match p
    case Presented(t) => if Happens(fault) then GetDel(s, q, t.jti) else s
    case Reused(t) => if Happens(fault) then Revoke(s, t.fam) else s
    case Loaded(_) => Issue(s, NextToken(p, jti, fam), fault)
    case Authenticated(_, _) => Issue(s, NextToken(p, jti, fam), fault)
    case Leaving(t) => if Happens(fault) then Revoke(s, t.fam) else s
    case Marked(t) => if Happens(fault) then s.(stored := s.stored - {t.jti}) else s
    case Changing(uid, ver, _) =>
      if fault.Works? && Current(s, uid, ver) then s.(locks := s.locks[uid := q]) else s
    case Updating(uid, _, _, _) => if fault.Works? && uid in s.users then s.(locks := s.locks[uid := q]) else s
    case ChangeLocked(uid, ver, change) =>
      if Accepts(s, uid, change) then Commit(s, uid, WithPassword(s.users[uid], change.new_), fault)
      else s.(locks := s.locks - {uid})
    case UpdateLocked(uid, password, active, role) =>
      if uid in s.users then Commit(s, uid, Changed(s.users[uid], password, active, role), fault) else s
    case _ => s
  }

  /** Where a step that works leaves the request. */
  function AfterWorks(s: State, p: Phase, jti: Jti, fam: Family): Phase {
    match p
    case Presented(t) => if t.jti in s.stored then Taken(t, s.stored[t.jti]) else Reused(t)
    case Reused(_) => Answered(Unauthorized)
    case Taken(t, record) =>
      if t.fam in s.revoked || record.fam != t.fam || record.uid != t.uid then Answered(Unauthorized)
      else Checked(t)
    case Checked(t) => if Current(s, t.uid, t.ver) then Loaded(t) else Answered(Unauthorized)
    case Loaded(t) => Answered(Pair(NextToken(p, jti, fam), Some(t.jti)))
    case Authenticated(_, _) => Answered(Pair(NextToken(p, jti, fam), None))
    case Leaving(t) => Marked(t)
    case Marked(_) => Answered(NoContent)
    case Changing(uid, ver, change) =>
      if Current(s, uid, ver) then ChangeLocked(uid, ver, change) else Answered(Unauthorized)
    case Updating(uid, password, active, role) =>
      if uid in s.users then UpdateLocked(uid, password, active, role) else Answered(NotFound)
    case ChangeLocked(uid, ver, change) =>
      if Accepts(s, uid, change) then Authenticated(uid, ver + 1)
      else if uid in s.users && s.users[uid].password == change.current then Answered(Rejected)
      else Answered(Unauthorized)
    case UpdateLocked(_, _, _, _) => Answered(Updated)
    case Answered(_) => p
  }

  /** A failing step answers 503; login and password change answer with the pair all the same. */
  function NextPhase(s: State, p: Phase, fault: Fault, jti: Jti, fam: Family): Phase {
    if fault.Works? || p.Authenticated? || p.Answered? then AfterWorks(s, p, jti, fam) else Answered(Unavailable)
  }

  function DoAdvance(s: State, q: Req, fault: Fault, jti: Jti, fam: Family): State
    requires q in s.requests
  {
    Effect(s, q, s.requests[q], fault, jti, fam)
      .(requests := s.requests[q := NextPhase(s, s.requests[q], fault, jti, fam)])
  }

  function To(s: State, q: Req, p: Phase): State {
    s.(requests := s.requests[q := p])
  }

  function Do(s: State, a: Action): State
    requires Enabled(s, a)
  {
    match a
    case StartRefresh(q, t) => To(s, q, Presented(t))
    case StartLogout(q, t) => To(s, q, Leaving(t))
    case Login(q, uid) => To(s, q, Authenticated(uid, s.users[uid].version))
    case StartChange(q, uid, ver, change) => To(s, q, Changing(uid, ver, change))
    case StartUpdate(q, uid, password, active, role) => To(s, q, Updating(uid, password, active, role))
    case Advance(q, fault, jti, fam) => DoAdvance(s, q, fault, jti, fam)
  }

  // ---- the invariant ----------------------------------------------------------------------------

  predicate HasToken(p: Phase) {
    p.Presented? || p.Reused? || p.Taken? || p.Checked? || p.Loaded? || p.Leaving? || p.Marked?
  }

  /** Between GETDEL and the new SET. */
  predicate InFlight(p: Phase) {
    p.Taken? || p.Checked? || p.Loaded?
  }

  /** What can still lead to a new refresh token of a family. */
  datatype Holder = InStore(jti: Jti) | Carried(q: Req)

  predicate Holds(s: State, h: Holder, fam: Family) {
    match h
    case InStore(jti) => jti in s.stored && s.stored[jti].fam == fam
    case Carried(q) => q in s.requests && InFlight(s.requests[q]) && s.requests[q].t.fam == fam
  }

  ghost predicate OneHolder(s: State) {
    forall h, h', fam :: Holds(s, h, fam) && Holds(s, h', fam) ==> h == h'
  }

  ghost predicate Signed(s: State, jti: Jti, record: Record) {
    exists t <- s.issued :: t.jti == jti && t.uid == record.uid && t.fam == record.fam
  }

  ghost predicate TokensOk(s: State) {
    && (forall t, t' :: t in s.issued && t' in s.issued && t.jti == t'.jti ==> t == t')
    && (forall jti <- s.stored :: Signed(s, jti, s.stored[jti]) && jti !in s.hits)
    && (forall jti <- s.hits :: !NewJti(s, jti))
  }

  predicate Took(s: State, q: Req, jti: Jti) {
    jti in s.hits && s.hits[jti] == q
  }

  predicate ReplyOk(s: State, q: Req, reply: Reply) {
    reply.Pair? ==> reply.t in s.issued && (reply.spent.Some? ==> Took(s, q, reply.spent.value))
  }

  predicate RequestOk(s: State, q: Req, p: Phase) {
    && (HasToken(p) ==> p.t in s.issued)
    && (InFlight(p) ==> Took(s, q, p.t.jti))
    && (p.Answered? ==> ReplyOk(s, q, p.reply))
  }

  ghost predicate RequestsOk(s: State) {
    forall q <- s.requests :: RequestOk(s, q, s.requests[q])
  }

  predicate HoldsLock(p: Phase, uid: User) {
    (p.ChangeLocked? || p.UpdateLocked?) && p.uid == uid
  }

  predicate LockOk(s: State, q: Req, p: Phase) {
    && (p.ChangeLocked? || p.UpdateLocked? ==> p.uid in s.locks && s.locks[p.uid] == q && p.uid in s.users)
    && (p.ChangeLocked? ==> s.users[p.uid].version == p.ver)
  }

  ghost predicate LocksOk(s: State) {
    && (forall uid <- s.locks :: s.locks[uid] in s.requests && HoldsLock(s.requests[s.locks[uid]], uid))
    && (forall q <- s.requests :: LockOk(s, q, s.requests[q]))
  }

  ghost predicate Inv(s: State) {
    TokensOk(s) && RequestsOk(s) && OneHolder(s) && LocksOk(s)
  }

  ghost predicate Initial(s: State) {
    && s.stored == map[] && s.requests == map[] && s.locks == map[]
    && s.issued == {} && s.hits == map[]
  }
}
