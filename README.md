# Identity, access and value rules of the SENG302 marketplace backend, in Dafny

This project models the rule-bearing core of a Spring Boot marketplace backend and proves its
properties:

- **The current user controller** (`org.seng302.controller.UserResource`, module
  `ControllerResource`). It covers:
  - login with attempt counting and a one-hour lock;
  - the loop that draws an unused session token;
  - the `orderBy` table of the user search, with its page size of five;
  - the choice between the full and the secure profile;
  - role hiding in search results;
  - the password-change permission rule and the profile-edit gate;
  - the `makeAdmin` / `revokeAdmin` endpoints.
- **The older user controller** (`org.seng302.user.UserResource`, module `LegacyResource`). It
  covers:
  - session verification and login without a lock;
  - the user search, which splits its query with `String.split(" ")`, dispatches on three parts,
    two parts or anything else, unions four name searches in the fallback, hides roles from
    everybody but the default global application admin (DGAA) and removes duplicates;
  - `verifyRole`, the role rule of `retrieveUser`, and the same role-change endpoints.
- **The shared account model** (module `Accounts`). It holds:
  - the stored user record and the user repository as a map from id to record;
  - the account operations the controllers call (`isLocked`, `canUnlock`, `unlockAccount`,
    `useAttempt`, `lockAccount`, `verifyPassword`, `isGAAorDGAA`);
  - session verification and the token loop;
  - the role-change table.
- **`Address`** (module `Addresses`):
  - the validating constructor and its normalisation of empty fields;
  - the positional parser `toAddress` and the serialiser `toStringJSON`, with their round trip;
  - `toString` and the two payload projections;
  - in-place maintenance of the user and business back-references.
- **`InventoryItem`** (module `Inventory`): the constructor's guard chain, the class with its
  constructor and setters, and a factory that returns the thrown error.

Two helper modules give the Java library behaviour the core relies on:

- `JavaStrings`: `String.split` with limit 0, `replace`, `equalsIgnoreCase` and joining.
- `JavaLists`: `Stream.distinct` and `List.remove`.

Design of the model:

- **Endpoint outcomes.** An endpoint's answer is a `Result` whose failure is an HTTP status
  (`HttpStatus.Status`). A state-changing endpoint is a pure function from the old user table to
  its answer and the new table. A class `UserResource` holds the table as a field, and its methods
  change it step by step, as the source does. Each method's `ensures` ties its answer and new
  state to the pure function.
- **Time and randomness.** "Now" is a parameter: seconds for the lock, day numbers for inventory
  dates. The random session token generator is a sequence of candidate tokens. The loop takes
  the first candidate that no user holds, and the caller supplies a sequence that contains one.
- **Code that is not part of this model.** `User.java`, `Authorization.java`,
  `AddressValidation` and `model.Address` are not part of this model. Their operations are stated
  from what the controllers rely on:
  - The account starts with three attempts. Each wrong password uses one, and none left means
    the account is locked for 3600 seconds.
  - The password is compared as stored.
  - The validators are function parameters.

Where the documented behaviour and the code differ, the model follows the code:

- **Attempts.** A successful login does not give back used attempts. Only an expired lock resets
  them. Failures therefore accumulate across successful logins
  (`ControllerResource.FailuresAccumulateAcrossSuccesses`).
- **`toAddress` piece values.** `toAddress` takes the text between the first and the second `:`
  of each piece, not everything after the first `:`.
- **A wrong password that locks the account.** It is still answered BAD_REQUEST, not FORBIDDEN.

## Model

| member | source | states |
|---|---|---|
| Accounts.UnlockAccount | backend/src/main/java/org/seng302/controller/UserResource.java:118-121 | after unlocking the account is not locked and has all three attempts back; nothing else changes |
| Accounts.UseAttempt | backend/src/main/java/org/seng302/controller/UserResource.java:146-147 | a wrong password consumes exactly one attempt and changes nothing else |
| Accounts.LockAccount | backend/src/main/java/org/seng302/controller/UserResource.java:102-104 | a locked account can be unlocked exactly from one hour after the lock onwards, and nothing else changes |
| Accounts.AttemptCycle | backend/src/main/java/org/seng302/controller/UserResource.java:117-152 | isLocked, canUnlock and hasLoginAttemptsRemaining over a cycle: two failures leave attempts, the third uses the last, the lock lifts exactly an hour later, and unlocking restores the account |
| Accounts.AdministratorsOutrankUsers | backend/src/main/java/org/seng302/controller/UserResource.java:619 | isGAAorDGAA holds exactly for the roles ranked above USER |
| Accounts.FindByEmail | backend/src/main/java/org/seng302/controller/UserResource.java:112-114 | findByEmail is empty exactly when no user has the email, and otherwise is the unique holder |
| Accounts.FindBySession | backend/src/main/java/org/seng302/user/UserResource.java:40 | findBySessionUUID is empty exactly when no user holds the token, and otherwise is its unique holder |
| Accounts.VerifySession | backend/src/main/java/org/seng302/user/UserResource.java:39-49 | UNAUTHORIZED exactly when the token is null or held by nobody; otherwise the user holding it |
| Accounts.FirstUnbound | backend/src/main/java/org/seng302/user/UserResource.java:55-61 | the loop stops at the first drawn token no user holds; every earlier draw was held |
| Accounts.FreshToken | backend/src/main/java/org/seng302/controller/UserResource.java:93-99 | the token drawn is held by no user |
| Accounts.GetUniqueSessionUuid | backend/src/main/java/org/seng302/controller/UserResource.java:93-99 | the while loop returns the first unheld candidate, which no user holds |
| Accounts.FreshTokenIgnoresOtherFields | backend/src/main/java/org/seng302/controller/UserResource.java:118-136 | changing a user's counters or lock does not change which token the loop draws |
| Accounts.InstallFreshToken | backend/src/main/java/org/seng302/controller/UserResource.java:132-136 | giving a user a token that no user holds keeps tokens unique, and binds the token |
| Accounts.MakeAdmin | backend/src/main/java/org/seng302/controller/UserResource.java:490-511 | missing target NOT_ACCEPTABLE; USER to GAA exactly when the actor is the DGAA; otherwise FORBIDDEN with the table unchanged |
| Accounts.RevokeAdmin | backend/src/main/java/org/seng302/controller/UserResource.java:524-545 | missing target NOT_ACCEPTABLE; GAA to USER exactly when the actor is the DGAA; otherwise FORBIDDEN |
| Accounts.RevokeUndoesMake | backend/src/main/java/org/seng302/controller/UserResource.java:490-545 | revokeAdmin undoes a successful makeAdmin, and makeAdmin undoes a successful revokeAdmin |
| Accounts.RoleChangesNotRepeatable | backend/src/main/java/org/seng302/controller/UserResource.java:500-511 | repeating a successful role change is FORBIDDEN |
| Accounts.RoleChangesKeepValidAndDgaa | backend/src/main/java/org/seng302/controller/UserResource.java:500-502 | role changes keep emails and tokens unique and never make or unmake a DGAA |
| Accounts.SetGaaOutcome | backend/src/main/java/org/seng302/controller/UserResource.java:487-512 | makeAdmin verifies the session first (UNAUTHORIZED), then applies the role-change table with the caller's role |
| Accounts.RevokeGaaOutcome | backend/src/main/java/org/seng302/controller/UserResource.java:521-546 | revokeAdmin verifies the session first, then applies the revoke table with the caller's role |
| Accounts.NoSelfRoleChange | backend/src/main/java/org/seng302/controller/UserResource.java:500-534 | a caller can never change its own role |
| ControllerResource.Login | backend/src/main/java/org/seng302/controller/UserResource.java:110-167 | unknown email BAD_REQUEST, nothing saved; locked and not unlockable FORBIDDEN, nothing saved; success iff the password verifies, installing a fresh token; a wrong password uses one attempt and locks at zero, still BAD_REQUEST; only the user's session, attempts and lock change, and the table stays valid |
| ControllerResource.ThreeStrikes | backend/src/main/java/org/seng302/controller/UserResource.java:102-104 | three wrong passwords lock the account: a fourth login within the hour is FORBIDDEN even with the right password, and changes nothing |
| ControllerResource.UnlockAfterExpiry | backend/src/main/java/org/seng302/controller/UserResource.java:118-121 | after the lock expires, the account is unlocked before the password is checked; the right password logs in, a wrong one leaves two attempts |
| ControllerResource.StaysUnbound | backend/src/main/java/org/seng302/controller/UserResource.java:132-136 | a token no user holds stays unheld when one user changes without taking it |
| ControllerResource.FailuresAccumulateAcrossSuccesses | backend/src/main/java/org/seng302/controller/UserResource.java:132-159 | the sequence wrong, right, wrong, right, wrong locks the account: success does not reset the counter |
| ControllerResource.SortChain | backend/src/main/java/org/seng302/controller/UserResource.java:384-419 | accepts exactly the eight orderBy keys; every order ignores case; every chain but emailDESC ends with ascending email; direction follows the key |
| ControllerResource.ParseQuery | backend/src/main/java/org/seng302/controller/UserResource.java:450-454 | the empty query asks for all users, any other query is a name search for that query |
| ControllerResource.SearchUsers | backend/src/main/java/org/seng302/controller/UserResource.java:369-423 | UNAUTHORIZED without a session, BAD_REQUEST for an unknown orderBy, otherwise page size 5 with the chain and the parsed query |
| ControllerResource.RetrieveUser | backend/src/main/java/org/seng302/controller/UserResource.java:292-357 | UNAUTHORIZED, then NOT_ACCEPTABLE for a missing id; full profile with role iff the viewer is the user or GAA/DGAA, else secure profile with a null role |
| ControllerResource.SecureViewHidesPrivateFields | backend/src/main/java/org/seng302/controller/UserResource.java:338-353 | the secure profile does not depend on birth date, phone, street, postcode, password, role or session |
| ControllerResource.ConvertToPayloadSecureAndRemoveRoles | backend/src/main/java/org/seng302/controller/UserResource.java:466-479 | one secure payload per found user, in order, keeping its role exactly when the viewer is the DGAA |
| ControllerResource.ValidPasswordOrHavePermission | backend/src/main/java/org/seng302/controller/UserResource.java:613-624 | true iff the current password verifies or the editor outranks the target (admin over user, DGAA over GAA) |
| ControllerResource.UpdateUserInfo | backend/src/main/java/org/seng302/controller/UserResource.java:555-604 | succeeds exactly when the email is not another user's and any new password comes with a current password that passes the rule or is empty; every failure is BAD_REQUEST (email taken, current password not sent, wrong password); the profile fields are replaced; the password changes exactly when the rule allows, and a failed rule with an empty current password keeps it |
| ControllerResource.ModifiedUserProfile | backend/src/main/java/org/seng302/controller/UserResource.java:634-662 | UNAUTHORIZED, NOT_ACCEPTABLE for a missing id, FORBIDDEN unless the editor is the user or GAA/DGAA, then the edit; the table stays valid |
| ControllerResource.EditKeepsValid | backend/src/main/java/org/seng302/controller/UserResource.java:557-572 | writing back an account whose email is its own or unused keeps the table valid |
| ControllerResource.UserResource.LoginUser | backend/src/main/java/org/seng302/controller/UserResource.java:110-167 | the step-by-step login answers and saves exactly what Login states |
| ControllerResource.UserResource.SetGaa | backend/src/main/java/org/seng302/controller/UserResource.java:487-512 | the in-place role update answers and leaves the table as SetGaaOutcome states, and keeps the table valid |
| ControllerResource.UserResource.RevokeGaa | backend/src/main/java/org/seng302/controller/UserResource.java:521-546 | as RevokeGaaOutcome states, and the table stays valid |
| ControllerResource.UserResource.ModifyUserProfile | backend/src/main/java/org/seng302/controller/UserResource.java:634-662 | answers and saves as ModifiedUserProfile states, and the table stays valid |
| LegacyResource.Login | backend/src/main/java/org/seng302/user/UserResource.java:68-90 | success iff the email exists and the password verifies, installing a token no user held; otherwise BAD_REQUEST with nothing saved; no attempt counting |
| LegacyResource.LockoutIsNew | backend/src/main/java/org/seng302/user/UserResource.java:68-90 | the older login agrees with the current one on unlocked accounts, but logs into a locked account that the current one refuses |
| LegacyResource.VerifyRole | backend/src/main/java/org/seng302/user/UserResource.java:230-240 | true iff the token is held by a user whose role equals the argument |
| LegacyResource.RetrieveUser | backend/src/main/java/org/seng302/user/UserResource.java:146-181 | UNAUTHORIZED, NOT_ACCEPTABLE for a missing id, else the user's payload as the caller may see it (Visible): the user's own role iff the caller is the DGAA, otherwise null |
| LegacyResource.FindSound | backend/src/main/java/org/seng302/user/UserResource.java:199-211 | every payload a finder returns belongs to a row its criterion matches |
| LegacyResource.FindComplete | backend/src/main/java/org/seng302/user/UserResource.java:199-211 | every matching row's payload is among the finder's results |
| LegacyResource.FindMembers | backend/src/main/java/org/seng302/user/UserResource.java:199-211 | a finder returns exactly the payloads of the users its criterion matches |
| LegacyResource.Criteria | backend/src/main/java/org/seng302/user/UserResource.java:197-212 | three split parts search first/middle/last, two search first/last, any other count searches nickname, first, last and middle name with the whole query |
| LegacyResource.FindAllSound | backend/src/main/java/org/seng302/user/UserResource.java:207-212 | every payload in the concatenated lists matches one of the criteria |
| LegacyResource.FindAllComplete | backend/src/main/java/org/seng302/user/UserResource.java:207-212 | a row matched by any criterion is in the concatenated lists |
| LegacyResource.FindAllMembers | backend/src/main/java/org/seng302/user/UserResource.java:207-212 | the concatenated finder lists hold exactly the users matching some criterion |
| LegacyResource.HideRoles | backend/src/main/java/org/seng302/user/UserResource.java:214-218 | the value the role-nulling loop reaches: every payload with a null role and every other field kept (the loop itself is LegacyResource.UserResource.SearchUsers) |
| LegacyResource.RoleAdjustedMembers | backend/src/main/java/org/seng302/user/UserResource.java:199-218 | the role-adjusted list holds exactly the matching users, each with the role shown only to the DGAA |
| LegacyResource.RoleAdjusted | backend/src/main/java/org/seng302/user/UserResource.java:214-218 | each found payload, in order, as the caller may see it (role only for the DGAA) |
| LegacyResource.Search | backend/src/main/java/org/seng302/user/UserResource.java:189-221 | UNAUTHORIZED without a session; otherwise no duplicates, every result matches, and every matching user appears, with a role only for the DGAA |
| LegacyResource.SearchKeepsFirstOccurrenceOrder | backend/src/main/java/org/seng302/user/UserResource.java:220 | the results keep the order of first occurrences in the concatenated lists |
| LegacyResource.TrailingSpaceIsFirstAndLast | backend/src/main/java/org/seng302/user/UserResource.java:197-206 | "ann lee " has two parts (the trailing empty piece is dropped), so it is a first/last search |
| LegacyResource.LeadingSpaceIsFullName | backend/src/main/java/org/seng302/user/UserResource.java:197-202 | " ann lee" has three parts, the first empty, so it is a full-name search |
| LegacyResource.SpaceOnlyFallsBack | backend/src/main/java/org/seng302/user/UserResource.java:197-212 | " " splits into no parts and falls back to the four single-name searches |
| LegacyResource.UserResource.LoginUser | backend/src/main/java/org/seng302/user/UserResource.java:68-90 | the in-place login answers and saves exactly what Login states |
| LegacyResource.UserResource.SearchUsers | backend/src/main/java/org/seng302/user/UserResource.java:189-221 | the addAll, role-nulling loop and distinct compute exactly Search |
| LegacyResource.UserResource.SetGaa | backend/src/main/java/org/seng302/user/UserResource.java:248-271 | the same table as the current makeAdmin, and the table stays valid |
| LegacyResource.UserResource.RevokeGaa | backend/src/main/java/org/seng302/user/UserResource.java:280-303 | the same table as the current revokeAdmin, and the table stays valid |
| Addresses.FirstInvalid | backend/src/main/java/org/seng302/address/Address.java:62-80 | the error is that of the first failing check in the order street number, street name, city, region, country, postcode; None iff all pass |
| Addresses.Normalised | backend/src/main/java/org/seng302/address/Address.java:82-87 | each optional field is null iff it was "" and unchanged otherwise; the country is stored as given |
| Addresses.ToStringJson | backend/src/main/java/org/seng302/address/Address.java:251-260 | the text is the comma-joined `"key":"value"` members in braces; that toAddress reads it back is Addresses.JsonRoundTrip |
| Addresses.ToString | backend/src/main/java/org/seng302/address/Address.java:243-245 | the six fields, null rendered as "null", joined by ", " in declaration order |
| Addresses.ExtractFields | backend/src/main/java/org/seng302/address/Address.java:187-208 | the loop reads field i from piece i, the text between its first and second ':' (split(":")[1]), failing on fewer than six pieces or a missing value |
| Addresses.ToAddressPayload | backend/src/main/java/org/seng302/address/Address.java:215-228 | all six fields copied unchanged |
| Addresses.ToAddressPayloadSecure | backend/src/main/java/org/seng302/address/Address.java:230-236 | only city, region and country, unchanged |
| Addresses.ParsePositional | backend/src/main/java/org/seng302/address/Address.java:187-208 | six key:value members give back the six values whatever the keys |
| Addresses.JsonRoundTrip | backend/src/main/java/org/seng302/address/Address.java:187-260 | toAddress(toStringJSON(a)) gives back the same six fields when every field is set, non-empty and free of { } " , : and newline |
| Addresses.SecurePayloadHidesStreetAndPostcode | backend/src/main/java/org/seng302/address/Address.java:215-236 | the secure payload ignores street and postcode; the full payload is injective |
| Addresses.Address.constructor | backend/src/main/java/org/seng302/address/Address.java:62-88 | once every check passes, the stored fields are the normalised arguments and both lists are null |
| Addresses.Address.Create | backend/src/main/java/org/seng302/address/Address.java:62-88 | fails iff some check fails, with the first failing check's error; otherwise a new address with the normalised fields |
| Addresses.Address.ToAddress | backend/src/main/java/org/seng302/address/Address.java:187-209 | malformed input throws; otherwise the constructor's outcome on the extracted fields |
| Addresses.Address.SetUsers | backend/src/main/java/org/seng302/address/Address.java:138-140 | replaces the user list and nothing else |
| Addresses.Address.SetBusinesses | backend/src/main/java/org/seng302/address/Address.java:168-170 | replaces the business list and nothing else |
| Addresses.Address.AddUser | backend/src/main/java/org/seng302/address/Address.java:146-149 | appends the user and points its home address here; a null list throws and changes nothing |
| Addresses.Address.RemoveUser | backend/src/main/java/org/seng302/address/Address.java:151-154 | removes the first occurrence and clears the user's home address |
| Addresses.Address.AddBusiness | backend/src/main/java/org/seng302/address/Address.java:172-175 | appends the business and points its address here |
| Addresses.Address.RemoveBusiness | backend/src/main/java/org/seng302/address/Address.java:177-180 | removes the first occurrence and clears the business's address |
| JavaStrings.SplitPieces | backend/src/main/java/org/seng302/user/UserResource.java:197 | no piece of a split contains the separator |
| JavaStrings.DropTrailingEmptyKeeps | backend/src/main/java/org/seng302/user/UserResource.java:197 | split with limit 0 keeps a prefix of the pieces, ending in a non-empty one, and drops only empty ones |
| JavaStrings.SplitThenJoin | backend/src/main/java/org/seng302/user/UserResource.java:197 | joining the pieces of a split gives back the query, minus trailing separators |
| JavaStrings.SplitJoin | backend/src/main/java/org/seng302/user/UserResource.java:197 | split undoes joining when there are two or more separator-free pieces and the last is non-empty |
| JavaStrings.SplitJoinTrailing | backend/src/main/java/org/seng302/user/UserResource.java:197 | a trailing separator adds no piece |
| JavaStrings.RemoveChar | backend/src/main/java/org/seng302/address/Address.java:189 | replace(c, "") leaves no c and never lengthens the string |
| JavaLists.Distinct | backend/src/main/java/org/seng302/user/UserResource.java:220 | distinct has no duplicates and the same elements as its input |
| JavaLists.OrderedAppend | backend/src/main/java/org/seng302/user/UserResource.java:220 | one step of distinct keeps the first-occurrence order |
| JavaLists.DistinctKeepsFirstOccurrenceOrder | backend/src/main/java/org/seng302/user/UserResource.java:220 | distinct keeps elements in the order of their first occurrence |
| JavaLists.RemoveFirst | backend/src/main/java/org/seng302/address/Address.java:151-154 | List.remove drops exactly the first occurrence, keeping the rest in order; absent elements leave the list unchanged |
| Inventory.FirstInvalid | backend/src/main/java/org/seng302/business/inventoryItem/InventoryItem.java:81-101 | each error is reported exactly when its guard fails and all earlier guards pass; None iff all seven pass |
| Inventory.AcceptedIsWellFormed | backend/src/main/java/org/seng302/business/inventoryItem/InventoryItem.java:81-111 | an accepted item has the product's ids, a positive quantity, no negative price, was manufactured by today and expires today or later |
| Inventory.ExpiringTodayIsAccepted | backend/src/main/java/org/seng302/business/inventoryItem/InventoryItem.java:99-101 | an item expiring today is accepted; one that expired yesterday is rejected with the expiry message |
| Inventory.NullPricesAreAccepted | backend/src/main/java/org/seng302/business/inventoryItem/InventoryItem.java:90-95 | null prices never cause a price error, and clearing the prices of an accepted item keeps it accepted |
| Inventory.AcceptedDays | backend/src/main/java/org/seng302/business/inventoryItem/InventoryItem.java:96-101 | an item accepted on two days is accepted on every day between them |
| Inventory.InventoryItem.constructor | backend/src/main/java/org/seng302/business/inventoryItem/InventoryItem.java:102-111 | the ids come from the product, every other argument is stored as passed, and the item is well formed |
| Inventory.InventoryItem.Create | backend/src/main/java/org/seng302/business/inventoryItem/InventoryItem.java:70-112 | throws iff a guard fails, with the first failing guard's error; otherwise a new item storing the arguments |
| Inventory.InventoryItem.SetQuantity | backend/src/main/java/org/seng302/business/inventoryItem/InventoryItem.java:178-180 | sets the quantity unchecked and changes nothing else |
| Inventory.InventoryItem.SetExpires | backend/src/main/java/org/seng302/business/inventoryItem/InventoryItem.java:202-204 | sets the expiry unchecked and changes nothing else |
| Inventory.SetterBypassesGuards | backend/src/main/java/org/seng302/business/inventoryItem/InventoryItem.java:178-180 | a setter can give an accepted item a quantity the constructor refuses |

`JavaStrings.Split` (String.split with limit 0) has no contract of its own: what it promises is
stated by `JavaStrings.SplitPieces`, `DropTrailingEmptyKeeps`, `SplitThenJoin`, `SplitJoin` and
`SplitJoinTrailing`. The account predicates `IsLocked`, `CanUnlock` and `HasLoginAttemptsRemaining`
are stated through `Accounts.AttemptCycle` and `LockAccount`; `IsGaaOrDgaa` through
`Accounts.AdministratorsOutrankUsers`. `VerifyPassword` compares the stored password (see below).

The other setters of `InventoryItem` (`SetId`, `SetProduct`, `SetProductId`, `SetBusinessId`,
`SetPricePerItem`, `SetTotalPrice`, `SetManufactured`, `SetSellBy`, `SetBestBefore`) have the same
contract as `SetQuantity`, each for its own field (InventoryItem.java:162-200).

## Left out

- HTTP plumbing is not modelled: cookies and their attributes, response headers (`Total-Pages`, `Total-Rows`) and logging. `logoutUser` only expires the cookie.
- Registration (`registerUser`) and `extractAddress` are not modelled. Address validation in profile edits and the `update*` validators of `User` are not modelled either (the `IllegalUserArgumentException` path of `updateUserInfo`).
- `User.java`, `Authorization.java`, `AddressValidation` and `model.Address` are not part of this model. Password hashing is left out, and passwords are compared as stored. Address validators are function parameters.
- The current controller's users carry a `model.Address` that is not shown. Its projections are approximated by the `Address` class's six fields, because `toAddressPayload` and `toAddressPayloadSecure` are shown only for that class.
- `SearchUtils.convertSearchQueryToNames`, `findAllUsersByNames`, `PaginationUtils.parsePageNumber` and Spring's `Sort`/`PageRequest` are not modelled. `ControllerResource.SearchUsers` stops at the page request it builds.
- ControllerResource.SearchUsers: does not state which users the repository returns, nor their database order, because the query and collation code is not part of this model.
- `retrieveUser`'s loop that clears each administered business's administrator list, and user images, are not modelled.
- Accounts.GetUniqueSessionUuid: the generator is a finite list of candidate tokens that contains an unused one. An infinite generator that never yields a fresh token (the source would loop forever) is outside the model.
- LegacyResource.VerifyRole: a null token gives false. In the source it would query for users with a null session, but it is only ever called after the session check has rejected a null token.
- LegacyResource.Search: payload equality is value equality on all fields, assuming the `UserPayload` class, which is not part of this model, compares by value.
- Null arguments and payloads are left out: a null request body, a null search query, or a null address in a user.
- Strings are sequences of characters, and `equalsIgnoreCase` folds ASCII letters only.
- Prices are reals: Java's `Double` NaN (which passes `price < 0` checks) and rounding are not modelled. Dates are day numbers and times are seconds.
- Inventory: a product whose own id is null is not modelled. `Product` is not part of this model, and its id is taken as a string.
- Notifications, marketplace cards, listings and products are not modelled, as they are outside this core.
