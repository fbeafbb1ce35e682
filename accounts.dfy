/**
 * The user accounts both user controllers work on: the stored user record, the account operations
 * the controllers call on it (attempt counting, locking, password and role checks), the user
 * repository's lookups as queries on a map from id to record, session verification, the loop that
 * draws an unused session token, and the role-change table of makeAdmin and revokeAdmin.
 */
module Accounts {
  import opened Wrappers
  import opened HttpStatus
  import opened Addresses

  type UserId = int

  datatype Role = UserRole | GlobalApplicationAdmin | DefaultGlobalApplicationAdmin

  /** A stored user. The password is compared as stored; hashing is not part of this model. */
  datatype Account = Account(
    firstName: string,
    lastName: string,
    middleName: string,
    nickname: string,
    bio: string,
    email: string,
    dateOfBirth: string,
    phoneNumber: string,
    homeAddress: AddressFields,
    created: int,
    password: string,
    role: Role,
    session: Option<string>,
    attemptsLeft: int,
    lockedUntil: Option<int>)

  /** The user table, keyed by id. */
  type Users = map<UserId, Account>

  // ---------------------------------------------------------------------------------------
  // Account operations: three failed attempts lock the account for one hour.

  const MaxLoginAttempts: int := 3
  const LockSeconds: int := 3600

  predicate IsLocked(a: Account)
  {
    a.lockedUntil.Some?
  }

  /** A locked account may be unlocked once its lock has expired; `now` is in seconds. */
  predicate CanUnlock(a: Account, now: int)
  {
    a.lockedUntil.Some? && a.lockedUntil.value <= now
  }

  function UnlockAccount(a: Account): (b: Account)
    ensures !IsLocked(b) && b.attemptsLeft == MaxLoginAttempts
    ensures b.(lockedUntil := a.lockedUntil, attemptsLeft := a.attemptsLeft) == a
  {
    a.(lockedUntil := None, attemptsLeft := MaxLoginAttempts)
  }

  function UseAttempt(a: Account): (b: Account)
    ensures b.attemptsLeft == a.attemptsLeft - 1
    ensures b.(attemptsLeft := a.attemptsLeft) == a
  {
    a.(attemptsLeft := a.attemptsLeft - 1)
  }

  predicate HasLoginAttemptsRemaining(a: Account)
  {
    a.attemptsLeft > 0
  }

  function LockAccount(a: Account, now: int): (b: Account)
    ensures IsLocked(b) && forall t :: CanUnlock(b, t) <==> t >= now + LockSeconds
    ensures b.(lockedUntil := a.lockedUntil) == a
  {
    a.(lockedUntil := Some(now + LockSeconds))
  }

  predicate VerifyPassword(a: Account, password: string)
  {
    password == a.password
  }

  predicate IsGaaOrDgaa(a: Account)
  {
    a.role == GlobalApplicationAdmin || a.role == DefaultGlobalApplicationAdmin
  }

  /** The roles ordered by authority: USER below GAA below DGAA. */
  function Rank(r: Role): int
  {
    match r
    case UserRole => 0
    case GlobalApplicationAdmin => 1
    case DefaultGlobalApplicationAdmin => 2
  }

  /**
   * The cycle login drives an account through: two wrong passwords leave attempts, the third uses
   * the last one, locking then keeps it locked until exactly an hour has passed, and unlocking
   * gives back the account as it was before the first failure.
   */
  lemma AttemptCycle(a: Account, now: int, t: int)
    requires !IsLocked(a) && a.attemptsLeft == MaxLoginAttempts
    ensures var a1 := UseAttempt(a);
            var a2 := UseAttempt(a1);
            var a3 := UseAttempt(a2);
            var b := LockAccount(a3, now);
            && HasLoginAttemptsRemaining(a1) && HasLoginAttemptsRemaining(a2) && !HasLoginAttemptsRemaining(a3)
            && AttemptsWellFormed(a1) && AttemptsWellFormed(a2) && AttemptsWellFormed(b)
            && (CanUnlock(b, t) <==> t >= now + LockSeconds)
            && UnlockAccount(b) == a
  {
  }

  /** The administrators are exactly the roles ranked above USER. */
  lemma AdministratorsOutrankUsers(a: Account)
    ensures IsGaaOrDgaa(a) <==> Rank(a.role) > Rank(UserRole)
  {
  }

  /** The attempt counter stays in 0..3 and the account is locked exactly when no attempt is left. */
  predicate AttemptsWellFormed(a: Account)
  {
    0 <= a.attemptsLeft <= MaxLoginAttempts && (IsLocked(a) <==> a.attemptsLeft == 0)
  }

  // ---------------------------------------------------------------------------------------
  // The user table and its lookups

  predicate EmailsUnique(users: Users)
  {
    forall i, j :: i in users && j in users && users[i].email == users[j].email ==> i == j
  }

  predicate TokensUnique(users: Users)
  {
    forall i, j :: i in users && j in users && users[i].session.Some? && users[i].session == users[j].session ==> i == j
  }

  /** The table as the controllers keep it: one user per email, one user per token, counters well formed. */
  predicate Valid(users: Users)
  {
    EmailsUnique(users) && TokensUnique(users) && forall id :: id in users ==> AttemptsWellFormed(users[id])
  }

  /** Some user holds the token. */
  predicate TokenBound(users: Users, token: string)
  {
    exists id :: id in users && users[id].session == Some(token)
  }

  /** findByEmail. */
  function FindByEmail(users: Users, email: string): (r: Option<UserId>)
    requires EmailsUnique(users)
    ensures r.None? <==> forall id :: id in users ==> users[id].email != email
    ensures forall id :: id in users && users[id].email == email ==> r == Some(id)
  {
    if exists id :: id in users && users[id].email == email then
      var id :| id in users && users[id].email == email;
      Some(id)
    else None
  }

  /** findBySessionUUID. */
  function FindBySession(users: Users, token: string): (r: Option<UserId>)
    requires TokensUnique(users)
    ensures r.None? <==> !TokenBound(users, token)
    ensures forall id :: id in users && users[id].session == Some(token) ==> r == Some(id)
  {
    if exists id :: id in users && users[id].session == Some(token) then
      var id :| id in users && users[id].session == Some(token);
      Some(id)
    else None
  }

  /**
   * getUserVerifySession: a missing token, or one no user holds, is UNAUTHORIZED; otherwise the
   * user holding the token.
   */
  function VerifySession(users: Users, token: Option<string>): (r: Result<UserId, Status>)
    requires TokensUnique(users)
    ensures r.Failure? <==> token.None? || !TokenBound(users, token.value)
    ensures r.Failure? ==> r.error == Unauthorized
    ensures r.Success? ==> r.value in users && users[r.value].session == token
  {
    if token.None? then Failure(Unauthorized)
    else
      match FindBySession(users, token.value)
      case None => Failure(Unauthorized)
      case Some(id) => Success(id)
  }

  // ---------------------------------------------------------------------------------------
  // Session tokens

  /** What a login answers and the user table it leaves behind. */
  datatype LoginOutcome = LoginOutcome(response: Result<UserId, Status>, users: Users)

  /** Some candidate token is held by no user: the generator eventually yields an unused token. */
  predicate SomeUnbound(users: Users, candidates: seq<string>)
  {
    exists j :: 0 <= j < |candidates| && !TokenBound(users, candidates[j])
  }

  /**
   * The position of the first candidate no user holds. The candidates stand for the successive
   * values User.generateSessionUUID returns; the source loops until one is unused.
   */
  function FirstUnbound(users: Users, candidates: seq<string>): (k: nat)
    requires SomeUnbound(users, candidates)
    ensures k < |candidates| && !TokenBound(users, candidates[k])
    ensures forall j :: 0 <= j < k ==> TokenBound(users, candidates[j])
    decreases |candidates|
  {
    if !TokenBound(users, candidates[0]) then 0
    else
      var j :| 0 <= j < |candidates| && !TokenBound(users, candidates[j]);
      assert 0 <= j - 1 < |candidates[1..]| && candidates[1..][j - 1] == candidates[j];
      1 + FirstUnbound(users, candidates[1..])
  }

  /** The token drawn by getUniqueSessionUUID. */
  function FreshToken(users: Users, candidates: seq<string>): (t: string)
    requires SomeUnbound(users, candidates)
    ensures !TokenBound(users, t)
  {
    candidates[FirstUnbound(users, candidates)]
  }

  /** getUniqueSessionUUID: draw tokens until one is held by no user. */
  method GetUniqueSessionUuid(users: Users, candidates: seq<string>) returns (token: string)
    requires TokensUnique(users)
    requires SomeUnbound(users, candidates)
    ensures token == FreshToken(users, candidates)
  {
    var i := 0;
    token := candidates[0];
    while FindBySession(users, token).Some?
      invariant 0 <= i <= FirstUnbound(users, candidates)
      invariant token == candidates[i]
      decreases FirstUnbound(users, candidates) - i
    {
      i := i + 1;
      token := candidates[i];
    }
  }

  /**
   * Changing a user without touching its session changes no token's binding, so the same token is
   * drawn before and after the change.
   */
  lemma FreshTokenIgnoresOtherFields(users: Users, id: UserId, a: Account, candidates: seq<string>)
    requires id in users && a.session == users[id].session
    ensures forall t :: TokenBound(users[id := a], t) <==> TokenBound(users, t)
    ensures SomeUnbound(users, candidates) ==>
              SomeUnbound(users[id := a], candidates)
              && FreshToken(users[id := a], candidates) == FreshToken(users, candidates)
  {
    var u := users[id := a];
    forall t ensures TokenBound(u, t) <==> TokenBound(users, t) {
      if TokenBound(users, t) {
        var k :| k in users && users[k].session == Some(t);
        assert u[k].session == Some(t);
      }
    }
    if SomeUnbound(users, candidates) {
      var k1 := FirstUnbound(users, candidates);
      assert !TokenBound(u, candidates[k1]);
      var k2 := FirstUnbound(u, candidates);
      assert !(k1 < k2) && !(k2 < k1);
    }
  }

  /** Giving one user a token no user holds keeps tokens unique. */
  lemma InstallFreshToken(users: Users, id: UserId, a: Account, token: string)
    requires TokensUnique(users) && id in users && !TokenBound(users, token)
    requires a.session == Some(token)
    ensures TokensUnique(users[id := a])
    ensures TokenBound(users[id := a], token)
  {
    var u := users[id := a];
    assert u[id].session == Some(token);
    assert forall k :: k in users ==> users[k].session != Some(token);
  }

  // ---------------------------------------------------------------------------------------
  // Role changes

  /**
   * makeAdmin once the caller is known: a missing target is NOT_ACCEPTABLE; a USER target becomes
   * GAA when the caller is the DGAA; every other combination is FORBIDDEN.
   */
  function MakeAdmin(users: Users, actor: Role, target: UserId): (r: Result<Users, Status>)
    ensures target !in users ==> r == Failure(NotAcceptable)
    ensures target in users ==>
              (r.Success? <==> users[target].role == UserRole && actor == DefaultGlobalApplicationAdmin)
    ensures target in users && r.Failure? ==> r.error == Forbidden
    ensures r.Success? ==> r.value == users[target := users[target].(role := GlobalApplicationAdmin)]
  {
    if target !in users then Failure(NotAcceptable)
    else if users[target].role == UserRole && actor == DefaultGlobalApplicationAdmin then
      Success(users[target := users[target].(role := GlobalApplicationAdmin)])
    else Failure(Forbidden)
  }

  /**
   * revokeAdmin once the caller is known: a missing target is NOT_ACCEPTABLE; a GAA target becomes
   * USER when the caller is the DGAA; every other combination is FORBIDDEN.
   */
  function RevokeAdmin(users: Users, actor: Role, target: UserId): (r: Result<Users, Status>)
    ensures target !in users ==> r == Failure(NotAcceptable)
    ensures target in users ==>
              (r.Success? <==> users[target].role == GlobalApplicationAdmin && actor == DefaultGlobalApplicationAdmin)
    ensures target in users && r.Failure? ==> r.error == Forbidden
    ensures r.Success? ==> r.value == users[target := users[target].(role := UserRole)]
  {
    if target !in users then Failure(NotAcceptable)
    else if users[target].role == GlobalApplicationAdmin && actor == DefaultGlobalApplicationAdmin then
      Success(users[target := users[target].(role := UserRole)])
    else Failure(Forbidden)
  }

  /** Revoking undoes making an admin, and making an admin undoes revoking. */
  lemma RevokeUndoesMake(users: Users, actor: Role, target: UserId)
    ensures MakeAdmin(users, actor, target).Success? ==>
              RevokeAdmin(MakeAdmin(users, actor, target).value, actor, target) == Success(users)
    ensures RevokeAdmin(users, actor, target).Success? ==>
              MakeAdmin(RevokeAdmin(users, actor, target).value, actor, target) == Success(users)
  {
    if MakeAdmin(users, actor, target).Success? {
      var u := MakeAdmin(users, actor, target).value;
      assert u[target := u[target].(role := UserRole)] == users;
    }
    if RevokeAdmin(users, actor, target).Success? {
      var u := RevokeAdmin(users, actor, target).value;
      assert u[target := u[target].(role := GlobalApplicationAdmin)] == users;
    }
  }

  /** A role change that succeeded cannot be repeated: the second attempt is FORBIDDEN. */
  lemma RoleChangesNotRepeatable(users: Users, actor: Role, target: UserId)
    ensures MakeAdmin(users, actor, target).Success? ==>
              MakeAdmin(MakeAdmin(users, actor, target).value, actor, target) == Failure(Forbidden)
    ensures RevokeAdmin(users, actor, target).Success? ==>
              RevokeAdmin(RevokeAdmin(users, actor, target).value, actor, target) == Failure(Forbidden)
  {
  }

  /**
   * Role changes keep the table valid and never create or remove a DGAA: who is the default
   * administrator is fixed.
   */
  lemma RoleChangesKeepValidAndDgaa(users: Users, actor: Role, target: UserId)
    requires Valid(users)
    ensures MakeAdmin(users, actor, target).Success? ==> Valid(MakeAdmin(users, actor, target).value)
    ensures RevokeAdmin(users, actor, target).Success? ==> Valid(RevokeAdmin(users, actor, target).value)
    ensures MakeAdmin(users, actor, target).Success? ==>
              forall id :: id in users ==>
                (MakeAdmin(users, actor, target).value[id].role == DefaultGlobalApplicationAdmin <==>
                 users[id].role == DefaultGlobalApplicationAdmin)
    ensures RevokeAdmin(users, actor, target).Success? ==>
              forall id :: id in users ==>
                (RevokeAdmin(users, actor, target).value[id].role == DefaultGlobalApplicationAdmin <==>
                 users[id].role == DefaultGlobalApplicationAdmin)
  {
  }

  // ---------------------------------------------------------------------------------------
  // The makeAdmin and revokeAdmin endpoints (the same in both controllers)

  /** What a state-changing endpoint answers: OK, or the status it throws. */
  function Response(o: Result<Users, Status>): (r: Result<(), Status>)
    ensures r.Success? <==> o.Success?
    ensures r.Failure? ==> r.error == o.error
  {
    match o
    case Success(_) => Success(())
    case Failure(e) => Failure(e)
  }

  /** The table after an endpoint: the new table on success, the old one when it threw. */
  function Effect(o: Result<Users, Status>, users: Users): (u: Users)
    ensures o.Failure? ==> u == users
    ensures o.Success? ==> u == o.value
  {
    if o.Success? then o.value else users
  }

  /** PUT /users/{id}/makeAdmin: verify the session, then apply the role-change table. */
  function SetGaaOutcome(users: Users, token: Option<string>, id: UserId): (r: Result<Users, Status>)
    requires TokensUnique(users)
    ensures VerifySession(users, token).Failure? ==> r == Failure(Unauthorized)
    ensures VerifySession(users, token).Success? ==>
              r == MakeAdmin(users, users[VerifySession(users, token).value].role, id)
  {
    match VerifySession(users, token)
    case Failure(e) => Failure(e)
    case Success(actor) => MakeAdmin(users, users[actor].role, id)
  }

  /** PUT /users/{id}/revokeAdmin: verify the session, then apply the role-change table. */
  function RevokeGaaOutcome(users: Users, token: Option<string>, id: UserId): (r: Result<Users, Status>)
    requires TokensUnique(users)
    ensures VerifySession(users, token).Failure? ==> r == Failure(Unauthorized)
    ensures VerifySession(users, token).Success? ==>
              r == RevokeAdmin(users, users[VerifySession(users, token).value].role, id)
  {
    match VerifySession(users, token)
    case Failure(e) => Failure(e)
    case Success(actor) => RevokeAdmin(users, users[actor].role, id)
  }

  /** An admin cannot promote or demote itself: the DGAA is never a USER or a GAA target. */
  lemma NoSelfRoleChange(users: Users, token: Option<string>)
    requires TokensUnique(users)
    requires VerifySession(users, token).Success?
    ensures SetGaaOutcome(users, token, VerifySession(users, token).value).Failure?
    ensures RevokeGaaOutcome(users, token, VerifySession(users, token).value).Failure?
  {
  }
}
