/**
 * The user controller (org.seng302.controller.UserResource): login with attempt counting and a
 * one-hour lock, the orderBy table of the user search, the choice between the full and the secure
 * profile, role hiding in search results, the password-change permission rule, the profile-edit
 * gate, and the role-change endpoints.
 */
module ControllerResource {
  import opened Wrappers
  import opened HttpStatus
  import opened Addresses
  import opened Accounts

  // ---------------------------------------------------------------------------------------
  // Login

  /**
   * POST /login. An unknown email is BAD_REQUEST. A locked account is FORBIDDEN unless its lock
   * has expired, in which case it is unlocked first. A correct password installs a fresh token;
   * a wrong one uses an attempt, locks the account when none is left, and is BAD_REQUEST.
   */
  function Login(users: Users, email: string, password: string, now: int, candidates: seq<string>): (o: LoginOutcome)
    requires Valid(users) && SomeUnbound(users, candidates)
    ensures Valid(o.users) && o.users.Keys == users.Keys
    ensures FindByEmail(users, email).None? ==> o == LoginOutcome(Failure(BadRequest), users)
    ensures FindByEmail(users, email).Some? ==>
              var id := FindByEmail(users, email).value;
              var a := users[id];
              && (forall k :: k in users && k != id ==> o.users[k] == users[k])
              && o.users[id].(session := a.session, attemptsLeft := a.attemptsLeft, lockedUntil := a.lockedUntil) == a
              && (IsLocked(a) && !CanUnlock(a, now) ==> o == LoginOutcome(Failure(Forbidden), users))
              && (o.response.Success? <==> !(IsLocked(a) && !CanUnlock(a, now)) && VerifyPassword(a, password))
              && (o.response.Success? ==>
                    o.response.value == id
                    && o.users[id].session == Some(FreshToken(users, candidates))
                    && !TokenBound(users, FreshToken(users, candidates))
                    && o.users[id].attemptsLeft == (if IsLocked(a) then MaxLoginAttempts else a.attemptsLeft)
                    && !IsLocked(o.users[id]))
              && (o.response.Failure? && !(IsLocked(a) && !CanUnlock(a, now)) ==>
                    o.response.error == BadRequest
                    && o.users[id].session == a.session
                    && o.users[id].attemptsLeft == (if IsLocked(a) then MaxLoginAttempts else a.attemptsLeft) - 1
                    && (IsLocked(o.users[id]) <==> o.users[id].attemptsLeft == 0)
                    && (IsLocked(o.users[id]) ==> o.users[id].lockedUntil == Some(now + LockSeconds)))
  {
    match FindByEmail(users, email)
    case None => LoginOutcome(Failure(BadRequest), users)
    case Some(id) =>
      var user := users[id];
      if IsLocked(user) && !CanUnlock(user, now) then LoginOutcome(Failure(Forbidden), users)
      else
        var user := if IsLocked(user) then UnlockAccount(user) else user;
        if VerifyPassword(user, password) then
          var token := FreshToken(users, candidates);
          InstallFreshToken(users, id, user.(session := Some(token)), token);
          LoginOutcome(Success(id), users[id := user.(session := Some(token))])
        else
          var user := UseAttempt(user);
          var user := if HasLoginAttemptsRemaining(user) then user else LockAccount(user, now);
          assert TokensUnique(users[id := user]) by {
            assert forall k :: k in users ==> users[id := user][k].session == users[k].session;
          }
          LoginOutcome(Failure(BadRequest), users[id := user])
  }

  /** A user table holding one account, with the given id. */
  predicate Holds(users: Users, id: UserId, email: string)
  {
    id in users && users[id].email == email
  }

  /**
   * Three wrong passwords in a row on an unlocked account with all its attempts lock it for an
   * hour: a fourth login within the hour is FORBIDDEN even with the right password, and nothing
   * changes.
   */
  lemma {:induction false} ThreeStrikes(users: Users, id: UserId, email: string, wrong: string, right: string,
                                        t1: int, t2: int, t3: int, t4: int, candidates: seq<string>)
    requires Valid(users) && SomeUnbound(users, candidates) && Holds(users, id, email)
    requires !IsLocked(users[id]) && users[id].attemptsLeft == MaxLoginAttempts
    requires !VerifyPassword(users[id], wrong)
    requires t3 <= t4 < t3 + LockSeconds
    ensures var o1 := Login(users, email, wrong, t1, candidates);
            SomeUnbound(o1.users, candidates) &&
            var o2 := Login(o1.users, email, wrong, t2, candidates);
            SomeUnbound(o2.users, candidates) &&
            var o3 := Login(o2.users, email, wrong, t3, candidates);
            SomeUnbound(o3.users, candidates) &&
            o1.response == o2.response == o3.response == Failure(BadRequest) &&
            IsLocked(o3.users[id]) &&
            Login(o3.users, email, right, t4, candidates) == LoginOutcome(Failure(Forbidden), o3.users)
  {
    var o1 := Login(users, email, wrong, t1, candidates);
    FreshTokenIgnoresOtherFields(users, id, o1.users[id], candidates);
    assert o1.users == users[id := o1.users[id]];
    assert Holds(o1.users, id, email) && o1.users[id].attemptsLeft == 2;
    var o2 := Login(o1.users, email, wrong, t2, candidates);
    FreshTokenIgnoresOtherFields(o1.users, id, o2.users[id], candidates);
    assert o2.users == o1.users[id := o2.users[id]];
    assert Holds(o2.users, id, email) && o2.users[id].attemptsLeft == 1;
    var o3 := Login(o2.users, email, wrong, t3, candidates);
    FreshTokenIgnoresOtherFields(o2.users, id, o3.users[id], candidates);
    assert o3.users == o2.users[id := o3.users[id]];
    assert Holds(o3.users, id, email) && o3.users[id].lockedUntil == Some(t3 + LockSeconds);
  }

  /**
   * Once the lock has expired the account is unlocked before the password is looked at: the right
   * password logs in with all attempts back, and a wrong one leaves two attempts.
   */
  lemma UnlockAfterExpiry(users: Users, id: UserId, email: string, password: string, now: int, candidates: seq<string>)
    requires Valid(users) && SomeUnbound(users, candidates) && Holds(users, id, email)
    requires IsLocked(users[id]) && CanUnlock(users[id], now)
    ensures var o := Login(users, email, password, now, candidates);
            && (VerifyPassword(users[id], password) ==>
                  o.response == Success(id) && o.users[id].attemptsLeft == MaxLoginAttempts)
            && (!VerifyPassword(users[id], password) ==>
                  o.response == Failure(BadRequest) && o.users[id].attemptsLeft == MaxLoginAttempts - 1
                  && !IsLocked(o.users[id]))
  {
  }

  /** Two tables differ at most in the record of one user. */
  predicate SameExcept(u: Users, v: Users, id: UserId)
  {
    u.Keys == v.Keys && forall k :: k in u && k != id ==> u[k] == v[k]
  }

  /** A token nobody held stays unheld when only one user, who does not take it, changes. */
  lemma StaysUnbound(u: Users, v: Users, id: UserId, t: string)
    requires SameExcept(u, v, id) && id in v && !TokenBound(u, t) && v[id].session != Some(t)
    ensures !TokenBound(v, t)
  {
    forall k | k in v ensures v[k].session != Some(t) {
      if k != id {
        assert u[k] == v[k];
      }
    }
  }

  /**
   * A successful login does not give back used attempts: wrong, right, wrong, right, wrong locks
   * the account although no two failures were consecutive. Each login draws its token from its
   * own candidate list.
   */
  lemma {:induction false} FailuresAccumulateAcrossSuccesses(users: Users, id: UserId, email: string,
                                                             wrong: string, right: string, now: int,
                                                             t1: string, t2: string)
    requires Valid(users) && Holds(users, id, email)
    requires !IsLocked(users[id]) && users[id].attemptsLeft == MaxLoginAttempts
    requires VerifyPassword(users[id], right) && !VerifyPassword(users[id], wrong)
    requires SomeUnbound(users, [t1]) && !TokenBound(users, t2) && t1 != t2
    ensures var o1 := Login(users, email, wrong, now, [t1]);
            SomeUnbound(o1.users, [t1]) &&
            var o2 := Login(o1.users, email, right, now, [t1]);
            SomeUnbound(o2.users, [t2]) &&
            var o3 := Login(o2.users, email, wrong, now, [t2]);
            SomeUnbound(o3.users, [t2]) &&
            var o4 := Login(o3.users, email, right, now, [t2]);
            SomeUnbound(o4.users, [t1]) &&
            var o5 := Login(o4.users, email, wrong, now, [t1]);
            && o2.response == Success(id) && o4.response == Success(id)
            && o5.response == Failure(BadRequest) && IsLocked(o5.users[id])
  {
    assert !TokenBound(users, t1);
    var o1 := Login(users, email, wrong, now, [t1]);
    StaysUnbound(users, o1.users, id, t1);
    StaysUnbound(users, o1.users, id, t2);
    assert !TokenBound(o1.users, [t1][0]);
    assert Holds(o1.users, id, email);
    var o2 := Login(o1.users, email, right, now, [t1]);
    StaysUnbound(o1.users, o2.users, id, t2);
    assert !TokenBound(o2.users, [t2][0]);
    assert Holds(o2.users, id, email) && o2.users[id].attemptsLeft == 2;
    var o3 := Login(o2.users, email, wrong, now, [t2]);
    StaysUnbound(o2.users, o3.users, id, t2);
    StaysUnbound(users, o3.users, id, t2) by {
      assert SameExcept(users, o3.users, id);
    }
    assert !TokenBound(o3.users, [t2][0]);
    assert Holds(o3.users, id, email) && o3.users[id].attemptsLeft == 1;
    var o4 := Login(o3.users, email, right, now, [t2]);
    assert SameExcept(users, o4.users, id);
    StaysUnbound(users, o4.users, id, t1);
    assert !TokenBound(o4.users, [t1][0]);
    assert Holds(o4.users, id, email) && o4.users[id].attemptsLeft == 1;
  }

  // ---------------------------------------------------------------------------------------
  // Search

  /** The entity properties the search can be ordered by. */
  datatype SortField = FirstName | MiddleName | LastName | Nickname | Email | HomeCity | HomeRegion | HomeCountry

  datatype Direction = Ascending | Descending

  /** One `Sort.Order` of the chain: a property, a direction and whether case is ignored. */
  datatype SortOrder = SortOrder(field: SortField, direction: Direction, ignoreCase: bool)

  /** The front end shows five users per page. */
  const PageSize: int := 5

  const OrderByKeys: set<string> :=
    {"fullNameASC", "fullNameDESC", "nicknameASC", "nicknameDESC", "emailASC", "emailDESC", "addressASC", "addressDESC"}

  /** The orderBy value ends in "DESC". */
  predicate Descends(orderBy: string)
  {
    |orderBy| >= 4 && orderBy[|orderBy| - 4..] == "DESC"
  }

  /**
   * The orderBy switch: each of the eight keys maps to its chain of sort orders, every other
   * string is rejected.
   */
  function SortChain(orderBy: string): (r: Option<seq<SortOrder>>)
    ensures r.Some? <==> orderBy in OrderByKeys
    ensures r.Some? ==> |r.value| >= 1 && forall i :: 0 <= i < |r.value| ==> r.value[i].ignoreCase
    ensures r.Some? && orderBy != "emailDESC" ==> r.value[|r.value| - 1] == SortOrder(Email, Ascending, true)
    ensures r.Some? ==> forall i :: 0 <= i < |r.value| && (i < |r.value| - 1 || |r.value| == 1) ==>
                          (r.value[i].direction == Descending <==> Descends(orderBy))
  {
    var byEmail := SortOrder(Email, Ascending, true);
    match orderBy
    case "fullNameASC" =>
      Some([SortOrder(FirstName, Ascending, true), SortOrder(MiddleName, Ascending, true),
            SortOrder(LastName, Ascending, true), byEmail])
    case "fullNameDESC" =>
      Some([SortOrder(FirstName, Descending, true), SortOrder(MiddleName, Descending, true),
            SortOrder(LastName, Descending, true), byEmail])
    case "nicknameASC" => Some([SortOrder(Nickname, Ascending, true), byEmail])
    case "nicknameDESC" => Some([SortOrder(Nickname, Descending, true), byEmail])
    case "emailASC" => Some([byEmail])
    case "emailDESC" => Some([SortOrder(Email, Descending, true)])
    case "addressASC" =>
      Some([SortOrder(HomeCity, Ascending, true), SortOrder(HomeRegion, Ascending, true),
            SortOrder(HomeCountry, Ascending, true), byEmail])
    case "addressDESC" =>
      Some([SortOrder(HomeCity, Descending, true), SortOrder(HomeRegion, Descending, true),
            SortOrder(HomeCountry, Descending, true), byEmail])
    case _ => None
  }

  /** What parseAndExecuteQuery asks the repository for: every user for "", otherwise a name search. */
  datatype Query = AllUsers | ByNames(searchQuery: string)

  /** The page request the search runs: page number, page size, sort chain and query. */
  datatype SearchPlan = SearchPlan(viewer: UserId, page: int, pageSize: int, sort: seq<SortOrder>, query: Query)

  function ParseQuery(searchQuery: string): (q: Query)
    ensures q.AllUsers? <==> searchQuery == ""
    ensures q.ByNames? ==> q.searchQuery == searchQuery
  {
    if searchQuery == "" then AllUsers else ByNames(searchQuery)
  }

  /**
   * GET /users/search up to the repository call: UNAUTHORIZED without a valid session, then
   * BAD_REQUEST for an unknown orderBy, otherwise a five-user page ordered by the chain.
   */
  function SearchUsers(users: Users, token: Option<string>, searchQuery: string, orderBy: string, page: int)
    : (r: Result<SearchPlan, Status>)
    requires TokensUnique(users)
    ensures VerifySession(users, token).Failure? ==> r == Failure(Unauthorized)
    ensures VerifySession(users, token).Success? ==>
              (r.Failure? <==> orderBy !in OrderByKeys) && (r.Failure? ==> r.error == BadRequest)
    ensures r.Success? ==>
              && r.value.viewer == VerifySession(users, token).value
              && r.value.pageSize == PageSize && r.value.page == page
              && Some(r.value.sort) == SortChain(orderBy)
              && r.value.query == ParseQuery(searchQuery)
  {
    match VerifySession(users, token)
    case Failure(e) => Failure(e)
    case Success(viewer) =>
      match SortChain(orderBy)
      case None => Failure(BadRequest)
      case Some(sort) => Success(SearchPlan(viewer, page, PageSize, sort, ParseQuery(searchQuery)))
  }

  // ---------------------------------------------------------------------------------------
  // Profiles

  /** UserPayload: the whole profile and the full address. */
  datatype UserPayload = UserPayload(
    id: UserId, firstName: string, lastName: string, middleName: string, nickname: string, bio: string,
    email: string, dateOfBirth: string, phoneNumber: string, homeAddress: AddressPayload, created: int,
    role: Option<Role>)

  /** UserPayloadSecure: no date of birth, no phone number, only the coarse address. */
  datatype UserPayloadSecure = UserPayloadSecure(
    id: UserId, firstName: string, lastName: string, middleName: string, nickname: string, bio: string,
    email: string, homeAddress: AddressPayloadSecure, created: int, role: Option<Role>)

  /** What GET /users/{id} returns. */
  datatype UserView = Full(payload: UserPayload) | Secure(secure: UserPayloadSecure)

  function ToPayload(id: UserId, a: Account, role: Option<Role>): UserPayload
  {
    UserPayload(id, a.firstName, a.lastName, a.middleName, a.nickname, a.bio, a.email, a.dateOfBirth,
                a.phoneNumber, ToAddressPayload(a.homeAddress), a.created, role)
  }

  function ToPayloadSecure(id: UserId, a: Account, role: Option<Role>): UserPayloadSecure
  {
    UserPayloadSecure(id, a.firstName, a.lastName, a.middleName, a.nickname, a.bio, a.email,
                      ToAddressPayloadSecure(a.homeAddress), a.created, role)
  }

  /**
   * GET /users/{id}: UNAUTHORIZED without a session, NOT_ACCEPTABLE for a missing id, the full
   * profile with its role for the user itself or an administrator, the secure one without a role
   * for everybody else.
   */
  function RetrieveUser(users: Users, token: Option<string>, id: UserId): (r: Result<UserView, Status>)
    requires TokensUnique(users)
    ensures VerifySession(users, token).Failure? ==> r == Failure(Unauthorized)
    ensures VerifySession(users, token).Success? ==> (r.Failure? <==> id !in users)
    ensures r.Failure? && VerifySession(users, token).Success? ==> r.error == NotAcceptable
    ensures r.Success? ==>
              var viewer := VerifySession(users, token).value;
              && (r.value.Full? <==> viewer == id || IsGaaOrDgaa(users[viewer]))
              && (r.value.Full? ==> r.value.payload == ToPayload(id, users[id], Some(users[id].role)))
              && (r.value.Secure? ==> r.value.secure == ToPayloadSecure(id, users[id], None))
  {
    match VerifySession(users, token)
    case Failure(e) => Failure(e)
    case Success(viewer) =>
      if id !in users then Failure(NotAcceptable)
      else if viewer == id || IsGaaOrDgaa(users[viewer]) then
        Success(Full(ToPayload(id, users[id], Some(users[id].role))))
      else Success(Secure(ToPayloadSecure(id, users[id], None)))
  }

  /**
   * The secure profile reveals nothing private: two accounts that differ only in date of birth,
   * phone number, street, postcode, password, role, session or attempt state give the same one.
   */
  lemma SecureViewHidesPrivateFields(id: UserId, a: Account, b: Account)
    requires a.firstName == b.firstName && a.lastName == b.lastName && a.middleName == b.middleName
    requires a.nickname == b.nickname && a.bio == b.bio && a.email == b.email && a.created == b.created
    requires a.homeAddress.city == b.homeAddress.city && a.homeAddress.region == b.homeAddress.region
    requires a.homeAddress.country == b.homeAddress.country
    ensures ToPayloadSecure(id, a, None) == ToPayloadSecure(id, b, None)
  {
    SecurePayloadHidesStreetAndPostcode(a.homeAddress, b.homeAddress);
  }

  /**
   * convertToPayloadSecureAndRemoveRolesIfNotAuthenticated: secure payloads of the found users, in
   * order, each keeping its role only when the viewer is the DGAA.
   */
  method ConvertToPayloadSecureAndRemoveRoles(found: seq<(UserId, Account)>, viewer: Account)
    returns (payloads: seq<UserPayloadSecure>)
    ensures |payloads| == |found|
    ensures forall i :: 0 <= i < |found| ==>
              payloads[i] == ToPayloadSecure(found[i].0, found[i].1,
                                             if viewer.role == DefaultGlobalApplicationAdmin then Some(found[i].1.role) else None)
  {
    payloads := seq(|found|, i requires 0 <= i < |found| => ToPayloadSecure(found[i].0, found[i].1, Some(found[i].1.role)));
    for i := 0 to |payloads|
      invariant |payloads| == |found|
      invariant forall j :: 0 <= j < i ==>
                  payloads[j] == ToPayloadSecure(found[j].0, found[j].1,
                                                 if viewer.role == DefaultGlobalApplicationAdmin then Some(found[j].1.role) else None)
      invariant forall j :: i <= j < |found| ==> payloads[j] == ToPayloadSecure(found[j].0, found[j].1, Some(found[j].1.role))
    {
      var role: Option<Role> := None;
      if viewer.role == DefaultGlobalApplicationAdmin {
        role := payloads[i].role;
      }
      payloads := payloads[i := payloads[i].(role := role)];
    }
  }

  // ---------------------------------------------------------------------------------------
  // Profile edits

  /** The body of PUT /users/{id}/profile. */
  datatype ProfileEdit = ProfileEdit(
    firstName: string, lastName: string, middleName: string, nickname: string, bio: string, email: string,
    dateOfBirth: string, phoneNumber: string, homeAddress: AddressFields,
    newPassword: Option<string>, currentPassword: Option<string>)

  /**
   * validPasswordOrHavePermission: the current password verifies, or the editor is an
   * administrator and the target is not, or the editor is the DGAA and the target a GAA — that is,
   * the editor outranks the target.
   */
  function ValidPasswordOrHavePermission(selected: Account, current: Account, currentPassword: string): (r: bool)
    ensures r <==> VerifyPassword(selected, currentPassword) || Rank(current.role) > Rank(selected.role)
  {
    if VerifyPassword(selected, currentPassword) then true
    else if IsGaaOrDgaa(current) && !IsGaaOrDgaa(selected) then true
    else current.role == DefaultGlobalApplicationAdmin && selected.role == GlobalApplicationAdmin
  }

  /** The profile fields of the edit written over the account; password, role, session and attempts kept. */
  function ApplyEdit(a: Account, e: ProfileEdit): Account
  {
    a.(firstName := e.firstName, lastName := e.lastName, middleName := e.middleName, nickname := e.nickname,
       bio := e.bio, email := e.email, dateOfBirth := e.dateOfBirth, phoneNumber := e.phoneNumber,
       homeAddress := e.homeAddress)
  }

  /**
   * updateUserInfo: BAD_REQUEST when the new email belongs to another user; then the profile fields
   * are replaced and, when a new password is sent, it needs a current password (BAD_REQUEST without
   * one) and the permission rule; a failed rule is BAD_REQUEST unless the current password sent is
   * empty, in which case the password is silently left as it was.
   */
  function UpdateUserInfo(users: Users, current: UserId, selected: UserId, e: ProfileEdit): (r: Result<Account, Status>)
    requires EmailsUnique(users) && current in users && selected in users
    ensures r.Failure? ==> r.error == BadRequest
    ensures (exists k :: k in users && k != selected && users[k].email == e.email) ==> r.Failure?
    ensures r.Success? <==>
              !(FindByEmail(users, e.email).Some? && users[selected].email != e.email)
              && (e.newPassword.Some? ==>
                    e.currentPassword.Some?
                    && (ValidPasswordOrHavePermission(users[selected], users[current], e.currentPassword.value)
                        || e.currentPassword.value == ""))
    ensures r.Success? && e.newPassword.Some? && e.currentPassword.Some?
              && !ValidPasswordOrHavePermission(users[selected], users[current], e.currentPassword.value) ==>
              r.value.password == users[selected].password
    ensures e.newPassword.Some? && e.currentPassword.None? ==> r.Failure?
    ensures r.Success? ==> r.value.(password := users[selected].password) == ApplyEdit(users[selected], e)
    ensures r.Success? ==>
              (r.value.password == users[selected].password
               || (e.newPassword == Some(r.value.password) && e.currentPassword.Some?
                   && ValidPasswordOrHavePermission(users[selected], users[current], e.currentPassword.value)))
    ensures r.Success? && e.newPassword.Some? && e.currentPassword.Some?
              && ValidPasswordOrHavePermission(users[selected], users[current], e.currentPassword.value) ==>
              r.value.password == e.newPassword.value
  {
    if FindByEmail(users, e.email).Some? && users[selected].email != e.email then Failure(BadRequest)
    else
      var a := ApplyEdit(users[selected], e);
      if e.newPassword.None? then Success(a)
      else if e.currentPassword.None? then Failure(BadRequest)
      else if ValidPasswordOrHavePermission(users[selected], users[current], e.currentPassword.value) then
        Success(a.(password := e.newPassword.value))
      else if e.currentPassword.value != "" then Failure(BadRequest)
      else Success(a)
  }

  /**
   * PUT /users/{id}/profile: UNAUTHORIZED without a session, NOT_ACCEPTABLE for a missing id,
   * FORBIDDEN unless the editor is the user or an administrator, then updateUserInfo's outcome.
   */
  function ModifiedUserProfile(users: Users, token: Option<string>, id: UserId, e: ProfileEdit): (r: Result<Users, Status>)
    requires Valid(users)
    ensures VerifySession(users, token).Failure? ==> r == Failure(Unauthorized)
    ensures VerifySession(users, token).Success? && id !in users ==> r == Failure(NotAcceptable)
    ensures VerifySession(users, token).Success? && id in users ==>
              var editor := VerifySession(users, token).value;
              && (editor != id && !IsGaaOrDgaa(users[editor]) ==> r == Failure(Forbidden))
              && (editor == id || IsGaaOrDgaa(users[editor]) ==>
                    match UpdateUserInfo(users, editor, id, e)
                    case Failure(err) => r == Failure(err)
                    case Success(a) => r == Success(users[id := a]))
    ensures r.Success? ==> Valid(r.value)
  {
    match VerifySession(users, token)
    case Failure(err) => Failure(err)
    case Success(editor) =>
      if id !in users then Failure(NotAcceptable)
      else if id != editor && !IsGaaOrDgaa(users[editor]) then Failure(Forbidden)
      else
        match UpdateUserInfo(users, editor, id, e)
        case Failure(err) => Failure(err)
        case Success(a) =>
          EditKeepsValid(users, id, a);
          Success(users[id := a])
  }

  /** Writing an account whose email is its own or unused, with session and attempts kept, keeps the table valid. */
  lemma EditKeepsValid(users: Users, id: UserId, a: Account)
    requires Valid(users) && id in users
    requires a.session == users[id].session && a.attemptsLeft == users[id].attemptsLeft
    requires a.lockedUntil == users[id].lockedUntil
    requires a.email == users[id].email || forall k :: k in users ==> users[k].email != a.email
    ensures Valid(users[id := a])
  {
    var u := users[id := a];
    assert forall k :: k in users ==> u[k].session == users[k].session;
    assert forall k :: k in users && k != id ==> u[k] == users[k];
  }

  // ---------------------------------------------------------------------------------------
  // The controller

  class UserResource {
    /** The user repository's table. */
    var users: Users

    constructor (users: Users)
      requires Valid(users)
      ensures this.users == users
    {
      this.users := users;
    }

    /** POST /login, step by step as the source saves the user. */
    method LoginUser(email: string, password: string, now: int, candidates: seq<string>)
      returns (response: Result<UserId, Status>)
      requires Valid(users) && SomeUnbound(users, candidates)
      modifies this
      ensures LoginOutcome(response, users) == Login(old(users), email, password, now, candidates)
    {
      var found := FindByEmail(users, email);
      if found.None? {
        return Failure(BadRequest);
      }
      var id := found.value;
      var user := users[id];
      if IsLocked(user) {
        if CanUnlock(user, now) {
          user := UnlockAccount(user);
          FreshTokenIgnoresOtherFields(users, id, user, candidates);
          users := users[id := user];
        } else {
          return Failure(Forbidden);
        }
      }
      if VerifyPassword(user, password) {
        var token := GetUniqueSessionUuid(users, candidates);
        user := user.(session := Some(token));
        users := users[id := user];
        return Success(id);
      } else {
        user := UseAttempt(user);
        users := users[id := user];
        if !HasLoginAttemptsRemaining(user) {
          user := LockAccount(user, now);
          users := users[id := user];
        }
        return Failure(BadRequest);
      }
    }

    /** PUT /users/{id}/makeAdmin. */
    method SetGaa(id: UserId, token: Option<string>) returns (response: Result<(), Status>)
      requires Valid(users)
      modifies this
      ensures response == Response(SetGaaOutcome(old(users), token, id))
      ensures users == Effect(SetGaaOutcome(old(users), token, id), old(users))
      ensures Valid(users)
    {
      var current := VerifySession(users, token);
      if current.Failure? {
        return Failure(current.error);
      }
      if id !in users {
        return Failure(NotAcceptable);
      }
      var selected := users[id];
      if selected.role == UserRole && users[current.value].role == DefaultGlobalApplicationAdmin {
        RoleChangesKeepValidAndDgaa(users, users[current.value].role, id);
        users := users[id := selected.(role := GlobalApplicationAdmin)];
        return Success(());
      }
      return Failure(Forbidden);
    }

    /** PUT /users/{id}/revokeAdmin. */
    method RevokeGaa(id: UserId, token: Option<string>) returns (response: Result<(), Status>)
      requires Valid(users)
      modifies this
      ensures response == Response(RevokeGaaOutcome(old(users), token, id))
      ensures users == Effect(RevokeGaaOutcome(old(users), token, id), old(users))
      ensures Valid(users)
    {
      var current := VerifySession(users, token);
      if current.Failure? {
        return Failure(current.error);
      }
      if id !in users {
        return Failure(NotAcceptable);
      }
      var selected := users[id];
      if selected.role == GlobalApplicationAdmin && users[current.value].role == DefaultGlobalApplicationAdmin {
        RoleChangesKeepValidAndDgaa(users, users[current.value].role, id);
        users := users[id := selected.(role := UserRole)];
        return Success(());
      }
      return Failure(Forbidden);
    }

    /** PUT /users/{id}/profile: the gates, then updateUserInfo, then one save. */
    method ModifyUserProfile(id: UserId, token: Option<string>, e: ProfileEdit) returns (response: Result<(), Status>)
      requires Valid(users)
      modifies this
      ensures response == Response(ModifiedUserProfile(old(users), token, id, e))
      ensures users == Effect(ModifiedUserProfile(old(users), token, id, e), old(users))
      ensures Valid(users)
    {
      var current := VerifySession(users, token);
      if current.Failure? {
        return Failure(current.error);
      }
      if id !in users {
        return Failure(NotAcceptable);
      }
      var editor := current.value;
      if id != editor && !IsGaaOrDgaa(users[editor]) {
        return Failure(Forbidden);
      }
      var updated := UpdateUserInfo(users, editor, id, e);
      if updated.Failure? {
        return Failure(updated.error);
      }
      EditKeepsValid(users, id, updated.value);
      users := users[id := updated.value];
      return Success(());
    }
  }
}
