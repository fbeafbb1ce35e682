/**
 * The older user controller (org.seng302.user.UserResource): session verification, login without
 * attempt counting, the user search that splits its query on single spaces and falls back to a
 * de-duplicated union of four name searches, role visibility for the DGAA only, and the same
 * role-change endpoints as the current controller.
 */
module LegacyResource {
  import opened Wrappers
  import opened HttpStatus
  import opened Addresses
  import opened JavaStrings
  import opened JavaLists
  import opened Accounts
  import ControllerResource

  // ---------------------------------------------------------------------------------------
  // Login and roles

  /**
   * POST /login: success exactly when a user has the email and the password verifies; the user
   * then gets a fresh token. Every other case is BAD_REQUEST and changes nothing. There is no
   * attempt counting and no lock.
   */
  function Login(users: Users, email: string, password: string, candidates: seq<string>): (o: LoginOutcome)
    requires Valid(users) && SomeUnbound(users, candidates)
    ensures o.response.Success? <==>
              FindByEmail(users, email).Some? && VerifyPassword(users[FindByEmail(users, email).value], password)
    ensures o.response.Failure? ==> o == LoginOutcome(Failure(BadRequest), users)
    ensures o.response.Success? ==>
              var id := FindByEmail(users, email).value;
              && o.response.value == id
              && !TokenBound(users, FreshToken(users, candidates))
              && o.users == users[id := users[id].(session := Some(FreshToken(users, candidates)))]
    ensures Valid(o.users)
  {
    match FindByEmail(users, email)
    case None => LoginOutcome(Failure(BadRequest), users)
    case Some(id) =>
      if VerifyPassword(users[id], password) then
        var token := FreshToken(users, candidates);
        var u := users[id := users[id].(session := Some(token))];
        InstallFreshToken(users, id, u[id], token);
        assert forall k :: k in users && k != id ==> u[k] == users[k];
        LoginOutcome(Success(id), u)
      else LoginOutcome(Failure(BadRequest), users)
  }

  /**
   * The two versions agree on an account that is not locked, and differ on a locked one with the
   * right password: the current controller refuses it, the older one logs it in.
   */
  lemma LockoutIsNew(users: Users, email: string, password: string, now: int, candidates: seq<string>)
    requires Valid(users) && SomeUnbound(users, candidates)
    requires FindByEmail(users, email).Some?
    ensures var a := users[FindByEmail(users, email).value];
            && (!IsLocked(a) ==>
                  Login(users, email, password, candidates).response
                  == ControllerResource.Login(users, email, password, now, candidates).response)
            && (!IsLocked(a) && VerifyPassword(a, password) ==>
                  Login(users, email, password, candidates)
                  == ControllerResource.Login(users, email, password, now, candidates))
            && (IsLocked(a) && !CanUnlock(a, now) && VerifyPassword(a, password) ==>
                  Login(users, email, password, candidates).response.Success?
                  && ControllerResource.Login(users, email, password, now, candidates).response == Failure(Forbidden))
  {
  }

  /** verifyRole: the token is held by a user with exactly that role. */
  function VerifyRole(users: Users, token: Option<string>, role: Role): (r: bool)
    requires TokensUnique(users)
    ensures r <==> exists id :: id in users && token.Some? && users[id].session == token && users[id].role == role
  {
    match VerifySession(users, token)
    case Failure(_) => false
    case Success(id) => users[id].role == role
  }

  // ---------------------------------------------------------------------------------------
  // Profiles

  /** UserPayload of this version: the whole profile, with a role that may be hidden. */
  datatype UserPayload = UserPayload(
    id: UserId, firstName: string, lastName: string, middleName: string, nickname: string, bio: string,
    email: string, dateOfBirth: string, phoneNumber: string, homeAddress: AddressFields, created: int,
    role: Option<Role>)

  /** The payload the repository builds for a stored user, role included. */
  function Payload(users: Users, id: UserId): UserPayload
    requires id in users
  {
    var a := users[id];
    UserPayload(id, a.firstName, a.lastName, a.middleName, a.nickname, a.bio, a.email, a.dateOfBirth,
                a.phoneNumber, a.homeAddress, a.created, Some(a.role))
  }

  /**
   * GET /users/{id}: UNAUTHORIZED without a session, NOT_ACCEPTABLE for a missing id, otherwise the
   * user's payload, whose role is shown to the DGAA only.
   */
  function RetrieveUser(users: Users, token: Option<string>, id: UserId): (r: Result<UserPayload, Status>)
    requires TokensUnique(users)
    ensures VerifySession(users, token).Failure? ==> r == Failure(Unauthorized)
    ensures VerifySession(users, token).Success? ==> (r.Failure? <==> id !in users)
    ensures r.Failure? && VerifySession(users, token).Success? ==> r.error == NotAcceptable
    ensures r.Success? ==> r.value.(role := Some(users[id].role)) == Payload(users, id)
    ensures r.Success? ==> (r.value.role.Some? <==> VerifyRole(users, token, DefaultGlobalApplicationAdmin))
    ensures r.Success? && r.value.role.Some? ==> r.value.role.value == users[id].role
    ensures r.Success? ==> r.value == Visible(users, token, id)
  {
    match VerifySession(users, token)
    case Failure(e) => Failure(e)
    case Success(_) =>
      if id !in users then Failure(NotAcceptable)
      else if VerifyRole(users, token, DefaultGlobalApplicationAdmin) then Success(Payload(users, id))
      else Success(Payload(users, id).(role := None))
  }

  // ---------------------------------------------------------------------------------------
  // Search

  /** The repository's case-insensitive finders. */
  datatype Criterion =
    | FullName(first: string, middle: string, last: string)
    | FirstAndLast(first: string, last: string)
    | NicknameIs(name: string)
    | FirstNameIs(name: string)
    | LastNameIs(name: string)
    | MiddleNameIs(name: string)

  predicate Matches(a: Account, c: Criterion)
  {
    match c
    case FullName(f, m, l) =>
      EqualsIgnoreCase(a.firstName, f) && EqualsIgnoreCase(a.middleName, m) && EqualsIgnoreCase(a.lastName, l)
    case FirstAndLast(f, l) => EqualsIgnoreCase(a.firstName, f) && EqualsIgnoreCase(a.lastName, l)
    case NicknameIs(n) => EqualsIgnoreCase(a.nickname, n)
    case FirstNameIs(n) => EqualsIgnoreCase(a.firstName, n)
    case LastNameIs(n) => EqualsIgnoreCase(a.lastName, n)
    case MiddleNameIs(n) => EqualsIgnoreCase(a.middleName, n)
  }

  /** The table's rows, in the order the database returns them, are users. */
  predicate RowsIn(users: Users, rows: seq<UserId>)
  {
    forall i :: 0 <= i < |rows| ==> rows[i] in users
  }

  /** One finder: the payloads of the matching rows, in row order. */
  function Find(users: Users, rows: seq<UserId>, c: Criterion): (r: seq<UserPayload>)
    requires RowsIn(users, rows)
    ensures forall j :: 0 <= j < |r| ==> r[j].id in rows
  {
    if |rows| == 0 then []
    else
      var rest := Find(users, rows[1..], c);
      if Matches(users[rows[0]], c) then [Payload(users, rows[0])] + rest else rest
  }

  /** Each payload a finder returns is the payload of a row its criterion matches. */
  lemma {:induction false} FindSound(users: Users, rows: seq<UserId>, c: Criterion, j: int)
    requires RowsIn(users, rows) && 0 <= j < |Find(users, rows, c)|
    ensures var p := Find(users, rows, c)[j];
            p == Payload(users, p.id) && Matches(users[p.id], c)
    decreases |rows|
  {
    var rest := Find(users, rows[1..], c);
    if Matches(users[rows[0]], c) {
      assert Find(users, rows, c) == [Payload(users, rows[0])] + rest;
      if j > 0 {
        FindSound(users, rows[1..], c, j - 1);
      }
    } else {
      assert Find(users, rows, c) == rest;
      FindSound(users, rows[1..], c, j);
    }
  }

  /** A row the criterion matches has its payload among the finder's results. */
  lemma {:induction false} FindComplete(users: Users, rows: seq<UserId>, c: Criterion, i: int)
    requires RowsIn(users, rows) && 0 <= i < |rows| && Matches(users[rows[i]], c)
    ensures Payload(users, rows[i]) in Find(users, rows, c)
    decreases |rows|
  {
    var rest := Find(users, rows[1..], c);
    if i > 0 {
      assert rows[1..][i - 1] == rows[i];
      FindComplete(users, rows[1..], c, i - 1);
      assert Find(users, rows, c) == rest || Find(users, rows, c) == [Payload(users, rows[0])] + rest;
    }
  }

  /** A finder returns exactly the payloads of the rows its criterion matches. */
  lemma FindMembers(users: Users, rows: seq<UserId>, c: Criterion)
    requires RowsIn(users, rows)
    ensures var r := Find(users, rows, c);
            forall j :: 0 <= j < |r| ==> r[j] == Payload(users, r[j].id) && Matches(users[r[j].id], c)
    ensures var r := Find(users, rows, c);
            forall i :: 0 <= i < |rows| && Matches(users[rows[i]], c) ==> Payload(users, rows[i]) in r
  {
    var r := Find(users, rows, c);
    forall j | 0 <= j < |r| ensures r[j] == Payload(users, r[j].id) && Matches(users[r[j].id], c) {
      FindSound(users, rows, c, j);
    }
    forall i | 0 <= i < |rows| && Matches(users[rows[i]], c) ensures Payload(users, rows[i]) in r {
      FindComplete(users, rows, c, i);
    }
  }

  /**
   * The finders a query runs: split on ' ' as String.split does, three pieces are first, middle
   * and last name, two are first and last name, any other count searches the whole query as a
   * nickname, first, last or middle name. The ensures spell out that dispatch; the lemmas
   * TrailingSpaceIsFirstAndLast, LeadingSpaceIsFullName and SpaceOnlyFallsBack pin it on queries
   * where Java's split is easy to get wrong.
   */
  function Criteria(q: string): (cs: seq<Criterion>)
    ensures |Split(q, ' ')| == 3 ==> cs == [FullName(Split(q, ' ')[0], Split(q, ' ')[1], Split(q, ' ')[2])]
    ensures |Split(q, ' ')| == 2 ==> cs == [FirstAndLast(Split(q, ' ')[0], Split(q, ' ')[1])]
    ensures |Split(q, ' ')| != 2 && |Split(q, ' ')| != 3 ==>
              cs == [NicknameIs(q), FirstNameIs(q), LastNameIs(q), MiddleNameIs(q)]
  {
    var parts := Split(q, ' ');
    if |parts| == 3 then [FullName(parts[0], parts[1], parts[2])]
    else if |parts| == 2 then [FirstAndLast(parts[0], parts[1])]
    else [NicknameIs(q), FirstNameIs(q), LastNameIs(q), MiddleNameIs(q)]
  }

  predicate MatchesAny(a: Account, cs: seq<Criterion>)
  {
    exists k :: 0 <= k < |cs| && Matches(a, cs[k])
  }

  /** The finders' lists concatenated in order, as the fallback does with its four lists. */
  function FindAll(users: Users, rows: seq<UserId>, cs: seq<Criterion>): (r: seq<UserPayload>)
    requires RowsIn(users, rows)
    ensures forall j :: 0 <= j < |r| ==> r[j].id in rows
  {
    if |cs| == 0 then []
    else Find(users, rows, cs[0]) + FindAll(users, rows, cs[1..])
  }

  /** Each payload of the concatenation is a matching user's, from the finder that matched it. */
  lemma {:induction false} FindAllSound(users: Users, rows: seq<UserId>, cs: seq<Criterion>, j: int)
    requires RowsIn(users, rows) && 0 <= j < |FindAll(users, rows, cs)|
    ensures var p := FindAll(users, rows, cs)[j];
            p == Payload(users, p.id) && MatchesAny(users[p.id], cs)
    decreases |cs|
  {
    var first := Find(users, rows, cs[0]);
    var rest := FindAll(users, rows, cs[1..]);
    assert FindAll(users, rows, cs) == first + rest;
    if j < |first| {
      assert FindAll(users, rows, cs)[j] == first[j];
      FindSound(users, rows, cs[0], j);
      assert Matches(users[first[j].id], cs[0]);
    } else {
      var p := rest[j - |first|];
      assert FindAll(users, rows, cs)[j] == p;
      FindAllSound(users, rows, cs[1..], j - |first|);
      var k :| 0 <= k < |cs[1..]| && Matches(users[p.id], cs[1..][k]);
      assert cs[1..][k] == cs[k + 1];
      assert Matches(users[p.id], cs[k + 1]);
    }
  }

  /** A row matched by the k-th criterion is among the concatenated payloads. */
  lemma {:induction false} FindAllComplete(users: Users, rows: seq<UserId>, cs: seq<Criterion>, i: int, k: int)
    requires RowsIn(users, rows) && 0 <= i < |rows| && 0 <= k < |cs| && Matches(users[rows[i]], cs[k])
    ensures Payload(users, rows[i]) in FindAll(users, rows, cs)
    decreases |cs|
  {
    assert FindAll(users, rows, cs) == Find(users, rows, cs[0]) + FindAll(users, rows, cs[1..]);
    if k == 0 {
      FindComplete(users, rows, cs[0], i);
    } else {
      assert cs[1..][k - 1] == cs[k];
      FindAllComplete(users, rows, cs[1..], i, k - 1);
    }
  }

  /** The concatenated lists hold exactly the payloads of the rows some finder matches. */
  lemma FindAllMembers(users: Users, rows: seq<UserId>, cs: seq<Criterion>)
    requires RowsIn(users, rows)
    ensures var r := FindAll(users, rows, cs);
            forall j :: 0 <= j < |r| ==> r[j] == Payload(users, r[j].id) && MatchesAny(users[r[j].id], cs)
    ensures var r := FindAll(users, rows, cs);
            forall i :: 0 <= i < |rows| && MatchesAny(users[rows[i]], cs) ==> Payload(users, rows[i]) in r
  {
    var r := FindAll(users, rows, cs);
    forall j | 0 <= j < |r| ensures r[j] == Payload(users, r[j].id) && MatchesAny(users[r[j].id], cs) {
      FindAllSound(users, rows, cs, j);
    }
    forall i | 0 <= i < |rows| && MatchesAny(users[rows[i]], cs) ensures Payload(users, rows[i]) in r {
      var k :| 0 <= k < |cs| && Matches(users[rows[i]], cs[k]);
      FindAllComplete(users, rows, cs, i, k);
    }
  }

  /**
   * The role-nulling loop's effect: every payload with its role set to null. The ensures is the
   * definition pointwise; SearchUsers runs the loop and is proved to reach this value.
   */
  function HideRoles(ps: seq<UserPayload>): (r: seq<UserPayload>)
    ensures |r| == |ps| && forall j :: 0 <= j < |ps| ==> r[j] == ps[j].(role := None)
  {
    seq(|ps|, j requires 0 <= j < |ps| => ps[j].(role := None))
  }

  /** A user's payload as the caller sees it: the role is shown to the DGAA only. */
  function Visible(users: Users, token: Option<string>, id: UserId): UserPayload
    requires TokensUnique(users) && id in users
  {
    if VerifyRole(users, token, DefaultGlobalApplicationAdmin) then Payload(users, id)
    else Payload(users, id).(role := None)
  }

  /** The list before de-duplication: every found user as the caller may see them. */
  function RoleAdjusted(users: Users, rows: seq<UserId>, token: Option<string>, q: string): (r: seq<UserPayload>)
    requires TokensUnique(users) && RowsIn(users, rows)
    ensures var found := FindAll(users, rows, Criteria(q));
            |r| == |found| && forall j :: 0 <= j < |r| ==> r[j] == Visible(users, token, found[j].id)
  {
    var found := FindAll(users, rows, Criteria(q));
    FindAllMembers(users, rows, Criteria(q));
    if VerifyRole(users, token, DefaultGlobalApplicationAdmin) then found else HideRoles(found)
  }

  /**
   * GET /users/search: UNAUTHORIZED without a session; otherwise the matching users, each once,
   * with roles visible to the DGAA only.
   */
  function Search(users: Users, rows: seq<UserId>, token: Option<string>, q: string): (r: Result<seq<UserPayload>, Status>)
    requires TokensUnique(users) && RowsIn(users, rows)
    ensures VerifySession(users, token).Failure? <==> r.Failure?
    ensures r.Failure? ==> r.error == Unauthorized
    ensures r.Success? ==> NoDuplicates(r.value)
    ensures r.Success? ==>
              forall j :: 0 <= j < |r.value| ==>
                r.value[j].id in rows && MatchesAny(users[r.value[j].id], Criteria(q))
                && r.value[j] == Visible(users, token, r.value[j].id)
    ensures r.Success? ==>
              forall i :: 0 <= i < |rows| && MatchesAny(users[rows[i]], Criteria(q)) ==>
                Visible(users, token, rows[i]) in r.value
  {
    match VerifySession(users, token)
    case Failure(e) => Failure(e)
    case Success(_) =>
      var shown := RoleAdjusted(users, rows, token, q);
      RoleAdjustedMembers(users, rows, token, q);
      Success(Distinct(shown))
  }

  /** The role-adjusted list holds exactly the matching users, each as the caller may see them. */
  lemma RoleAdjustedMembers(users: Users, rows: seq<UserId>, token: Option<string>, q: string)
    requires TokensUnique(users) && RowsIn(users, rows)
    ensures forall p :: p in RoleAdjusted(users, rows, token, q) ==>
              p.id in rows && MatchesAny(users[p.id], Criteria(q)) && p == Visible(users, token, p.id)
    ensures forall i :: 0 <= i < |rows| && MatchesAny(users[rows[i]], Criteria(q)) ==>
              Visible(users, token, rows[i]) in RoleAdjusted(users, rows, token, q)
  {
    var shown := RoleAdjusted(users, rows, token, q);
    var found := FindAll(users, rows, Criteria(q));
    FindAllMembers(users, rows, Criteria(q));
    forall i | 0 <= i < |rows| && MatchesAny(users[rows[i]], Criteria(q))
      ensures Visible(users, token, rows[i]) in shown
    {
      var j :| 0 <= j < |found| && found[j] == Payload(users, rows[i]);
      assert shown[j] == Visible(users, token, rows[i]);
    }
  }

  /** The search result lists users in the order of their first appearance in the concatenated finder results. */
  lemma SearchKeepsFirstOccurrenceOrder(users: Users, rows: seq<UserId>, token: Option<string>, q: string)
    requires TokensUnique(users) && RowsIn(users, rows)
    requires Search(users, rows, token, q).Success?
    ensures var r := Search(users, rows, token, q).value;
            var s := RoleAdjusted(users, rows, token, q);
            forall i, j :: 0 <= i < j < |r| ==> FirstIndex(s, r[i]) < FirstIndex(s, r[j])
  {
    DistinctKeepsFirstOccurrenceOrder(RoleAdjusted(users, rows, token, q));
  }

  /** FindAll runs the first finder, then the rest. */
  lemma FindAllCons(users: Users, rows: seq<UserId>, cs: seq<Criterion>)
    requires RowsIn(users, rows) && |cs| >= 1
    ensures FindAll(users, rows, cs) == Find(users, rows, cs[0]) + FindAll(users, rows, cs[1..])
  {
  }

  /** FindAll on one criterion or on the fallback's four, written out as the controller calls the finders. */
  lemma FindAllUnfolds(users: Users, rows: seq<UserId>, cs: seq<Criterion>)
    requires RowsIn(users, rows)
    ensures |cs| == 1 ==> FindAll(users, rows, cs) == Find(users, rows, cs[0])
    ensures |cs| == 4 ==>
              FindAll(users, rows, cs)
              == Find(users, rows, cs[0]) + Find(users, rows, cs[1]) + Find(users, rows, cs[2]) + Find(users, rows, cs[3])
  {
    if |cs| == 1 {
      FindAllCons(users, rows, cs);
      assert FindAll(users, rows, cs[1..]) == [];
    } else if |cs| == 4 {
      var f0, f1, f2, f3 := Find(users, rows, cs[0]), Find(users, rows, cs[1]), Find(users, rows, cs[2]), Find(users, rows, cs[3]);
      assert FindAll(users, rows, cs[3..]) == f3 by {
        FindAllCons(users, rows, cs[3..]);
        assert cs[3..][1..] == [];
      }
      assert FindAll(users, rows, cs[2..]) == f2 + f3 by {
        FindAllCons(users, rows, cs[2..]);
        assert cs[2..][1..] == cs[3..];
      }
      assert FindAll(users, rows, cs[1..]) == f1 + (f2 + f3) by {
        FindAllCons(users, rows, cs[1..]);
        assert cs[1..][1..] == cs[2..];
      }
      assert FindAll(users, rows, cs) == f0 + (f1 + (f2 + f3)) by {
        FindAllCons(users, rows, cs);
      }
      assert f0 + (f1 + (f2 + f3)) == f0 + f1 + f2 + f3;
    }
  }

  /** "ann lee " splits into two pieces: String.split drops the trailing empty piece. */
  lemma TrailingSpaceIsFirstAndLast()
    ensures Criteria("ann lee ") == [FirstAndLast("ann", "lee")]
  {
    assert Split("ann lee ", ' ') == ["ann", "lee"] by {
      var ps := ["ann", "lee"];
      assert Join(ps, " ") + " " == "ann lee ";
      SplitJoinTrailing(ps, ' ');
    }
  }

  /** " ann lee" splits into three pieces, the first empty, so it searches by full name with an empty first name. */
  lemma LeadingSpaceIsFullName()
    ensures Criteria(" ann lee") == [FullName("", "ann", "lee")]
  {
    assert Split(" ann lee", ' ') == ["", "ann", "lee"] by {
      var ps := ["", "ann", "lee"];
      assert Join(ps, " ") == " ann lee";
      SplitJoin(ps, ' ');
    }
  }

  /** A query of one space splits into no pieces and falls back to the four single-name finders. */
  lemma SpaceOnlyFallsBack()
    ensures Criteria(" ") == [NicknameIs(" "), FirstNameIs(" "), LastNameIs(" "), MiddleNameIs(" ")]
  {
    assert Split(" ", ' ') == [] by {
      var ps := ["", ""];
      assert Join(ps, " ") == " ";
      SplitAllJoin(ps, ' ');
      assert " "[0] == ' ';
      assert DropTrailingEmpty(ps) == [];
    }
  }

  // ---------------------------------------------------------------------------------------
  // The controller

  class UserResource {
    /** The user repository's table. */
    var users: Users
    /** The table's ids in the order the database returns its rows. */
    var rows: seq<UserId>

    constructor (users: Users, rows: seq<UserId>)
      requires Valid(users) && RowsIn(users, rows)
      ensures this.users == users && this.rows == rows
    {
      this.users := users;
      this.rows := rows;
    }

    /** POST /login. */
    method LoginUser(email: string, password: string, candidates: seq<string>) returns (response: Result<UserId, Status>)
      requires Valid(users) && SomeUnbound(users, candidates)
      modifies this
      ensures LoginOutcome(response, users) == Login(old(users), email, password, candidates)
      ensures rows == old(rows)
    {
      var found := FindByEmail(users, email);
      if found.Some? && VerifyPassword(users[found.value], password) {
        var id := found.value;
        var token := GetUniqueSessionUuid(users, candidates);
        users := users[id := users[id].(session := Some(token))];
        return Success(id);
      }
      return Failure(BadRequest);
    }

    /** GET /users/search: run the finders, null the roles unless the caller is the DGAA, drop duplicates. */
    method SearchUsers(token: Option<string>, q: string) returns (r: Result<seq<UserPayload>, Status>)
      requires TokensUnique(users) && RowsIn(users, rows)
      ensures r == Search(users, rows, token, q)
    {
      var current := VerifySession(users, token);
      if current.Failure? {
        return Failure(current.error);
      }
      var parts := Split(q, ' ');
      var found: seq<UserPayload>;
      if |parts| == 3 {
        found := Find(users, rows, FullName(parts[0], parts[1], parts[2]));
      } else if |parts| == 2 {
        found := Find(users, rows, FirstAndLast(parts[0], parts[1]));
      } else {
        found := Find(users, rows, NicknameIs(q));
        found := found + Find(users, rows, FirstNameIs(q));
        found := found + Find(users, rows, LastNameIs(q));
        found := found + Find(users, rows, MiddleNameIs(q));
      }
      assert found == FindAll(users, rows, Criteria(q)) by {
        FindAllUnfolds(users, rows, Criteria(q));
      }
      ghost var all := found;
      if !VerifyRole(users, token, DefaultGlobalApplicationAdmin) {
        for i := 0 to |found|
          invariant |found| == |all|
          invariant forall j :: 0 <= j < i ==> found[j] == all[j].(role := None)
          invariant forall j :: i <= j < |found| ==> found[j] == all[j]
        {
          found := found[i := found[i].(role := None)];
        }
      }
      assert found == RoleAdjusted(users, rows, token, q);
      return Success(Distinct(found));
    }

    /** PUT /users/{id}/makeAdmin. */
    method SetGaa(id: UserId, token: Option<string>) returns (response: Result<(), Status>)
      requires Valid(users)
      modifies this
      ensures response == Response(SetGaaOutcome(old(users), token, id))
      ensures users == Effect(SetGaaOutcome(old(users), token, id), old(users)) && rows == old(rows)
      ensures Valid(users)
    {
      match VerifySession(users, token)
      case Failure(e) =>
        response := Failure(e);
      case Success(current) =>
        if id !in users {
          response := Failure(NotAcceptable);
        } else if users[id].role == UserRole && users[current].role == DefaultGlobalApplicationAdmin {
          RoleChangesKeepValidAndDgaa(users, users[current].role, id);
          users := users[id := users[id].(role := GlobalApplicationAdmin)];
          response := Success(());
        } else {
          response := Failure(Forbidden);
        }
    }

    /** PUT /users/{id}/revokeAdmin. */
    method RevokeGaa(id: UserId, token: Option<string>) returns (response: Result<(), Status>)
      requires Valid(users)
      modifies this
      ensures response == Response(RevokeGaaOutcome(old(users), token, id))
      ensures users == Effect(RevokeGaaOutcome(old(users), token, id), old(users)) && rows == old(rows)
      ensures Valid(users)
    {
      match VerifySession(users, token)
      case Failure(e) =>
        response := Failure(e);
      case Success(current) =>
        if id !in users {
          response := Failure(NotAcceptable);
        } else if users[id].role == GlobalApplicationAdmin && users[current].role == DefaultGlobalApplicationAdmin {
          RoleChangesKeepValidAndDgaa(users, users[current].role, id);
          users := users[id := users[id].(role := UserRole)];
          response := Success(());
        } else {
          response := Failure(Forbidden);
        }
    }
  }
}
