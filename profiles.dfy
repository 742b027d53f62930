/**
  The `profiles` table and the three server paths that touch usernames: the
  `setUsername` server action (normalise, validate, case-insensitive uniqueness
  guard, upsert by id), the read-only availability endpoint, and the profile
  update endpoint (partial update with an exact-match uniqueness guard).
*/
module Profiles {
  import opened Wrappers
  import opened Text
  import Username

  type UserId = string

  /** One row of `profiles`; `None` is SQL `null`. */
  datatype ProfileRow = ProfileRow(username: Option<string>, displayName: Option<string>)

  /** The table as the server sees it: rows keyed by user id. */
  class ProfilesTable {
    var rows: map<UserId, ProfileRow>

    constructor (initial: map<UserId, ProfileRow>)
      ensures rows == initial
    {
      rows := initial;
    }

    /** `upsert({ id, username }, { onConflict: "id" })`: other columns of an existing row are kept. */
    method UpsertUsername(id: UserId, username: string)
      modifies this
      ensures rows == old(rows)[id := ProfileRow(Some(username),
                                         if id in old(rows) then old(rows)[id].displayName else None)]
    {
      var displayName := if id in rows then rows[id].displayName else None;
      rows := rows[id := ProfileRow(Some(username), displayName)];
    }

    /** `update(patch).eq("id", id)`: a missing row means no row is touched. */
    method Update(id: UserId, patch: Patch)
      modifies this
      ensures rows == Patched(old(rows), id, patch)
    {
      rows := Patched(rows, id, patch);
    }
  }

  /** The columns an update sets: `None` leaves a column alone, `Some(v)` writes `v`. */
  datatype Patch = Patch(username: Option<Option<string>>, displayName: Option<Option<string>>)

  function ApplyPatch(row: ProfileRow, patch: Patch): (r: ProfileRow)
    ensures patch.username.None? ==> r.username == row.username
    ensures patch.username.Some? ==> r.username == patch.username.value
    ensures patch.displayName.None? ==> r.displayName == row.displayName
    ensures patch.displayName.Some? ==> r.displayName == patch.displayName.value
  {
    ProfileRow(patch.username.GetOr(row.username), patch.displayName.GetOr(row.displayName))
  }

  /** The table after `update(patch).eq("id", id)`: only row `id` changes, and only if it exists. */
  function Patched(rows: map<UserId, ProfileRow>, id: UserId, patch: Patch): (r: map<UserId, ProfileRow>)
    ensures r.Keys == rows.Keys
    ensures forall k :: k in rows && k != id ==> r[k] == rows[k]
    ensures id in rows ==> r[id] == ApplyPatch(rows[id], patch)
  {
    if id in rows then rows[id := ApplyPatch(rows[id], patch)] else rows
  }

  // ---------------------------------------------------------------------------
  // `ilike` for the patterns the application sends

  /** A LIKE pattern without `%` and without the escape character `\`. */
  predicate NoPercentOrEscape(pattern: string) {
    '%' !in pattern && '\\' !in pattern
  }

  /**
    `value ILIKE pattern` when the pattern has no `%` and no `\`: same length, and each
    pattern character is the wildcard `_` or equals the value's character once both are
    lowered by `LowerChar`.
  */
  predicate Ilike(value: string, pattern: string)
    requires NoPercentOrEscape(pattern)
  {
    |value| == |pattern| &&
    forall i :: 0 <= i < |pattern| ==> pattern[i] == '_' || LowerChar(value[i]) == LowerChar(pattern[i])
  }

  /** The ids whose username matches `pattern` under `ilike` (a null username never matches). */
  function IlikeMatches(rows: map<UserId, ProfileRow>, pattern: string): (ids: set<UserId>)
    requires NoPercentOrEscape(pattern)
    ensures ids <= rows.Keys
    ensures forall id :: id in ids <==>
      id in rows && rows[id].username.Some? && Ilike(rows[id].username.value, pattern)
  {
    set id | id in rows && rows[id].username.Some? && Ilike(rows[id].username.value, pattern)
  }

  /** `_` in a validated name is a wildcard: the pattern "a_c" matches the stored name "ABC". */
  lemma UnderscoreIsWildcard()
    ensures Ilike("ABC", "a_c")
    ensures Username.Validate("a_c").ok
  {
    var p := "a_c";
    assert forall i :: 0 <= i < |p| ==> Username.IsNameChar(p[i]);
    assert p !in Username.Reserved;
    Username.NameAccepted(p);
  }

  /** A name matches itself under `ilike`, whatever the case of the stored copy. */
  lemma IlikeIgnoresCase(name: string)
    requires NoPercentOrEscape(name)
    ensures Ilike(ToLower(name), name) && Ilike(name, name)
  {
  }

  // ---------------------------------------------------------------------------
  // setUsername (server action)

  const InUseMessage: string := "이미 사용 중인 닉네임입니다"

  /** Why a server action threw. */
  datatype ActionError =
    | Thrown(message: string)   // an `Error` raised by the action itself
    | DbError(query: Query)     // an error object returned by the store and rethrown

  /** The store calls of `setUsername`. */
  datatype Query = UsernameLookup | UsernameUpsert

  /** The answer of `select("id").ilike("username", u).limit(1)`. */
  datatype Lookup = LookupFailed | FirstRow(first: Option<UserId>)

  /**
    A `limit(1)` answer the store could give: no row exactly when nothing matches,
    otherwise one of the matching rows (which one is up to the store).
  */
  predicate LookupAgrees(rows: map<UserId, ProfileRow>, pattern: string, lookup: Lookup)
    requires NoPercentOrEscape(pattern)
  {
    lookup.FirstRow? ==>
      (lookup.first.None? <==> IlikeMatches(rows, pattern) == {}) &&
      (lookup.first.Some? ==> lookup.first.value in IlikeMatches(rows, pattern))
  }

  /** The guard of `setUsername`: the row the lookup returned belongs to someone else. */
  predicate TakenByOther(first: Option<UserId>, userId: UserId) {
    first.Some? && first.value != userId
  }

  /**
    When no other user's name matches, the guard lets the caller through whichever
    row the store returns; when another user's name matches and the caller's does
    not, it blocks.
  */
  lemma {:induction false} GuardDecides(rows: map<UserId, ProfileRow>, pattern: string, first: Option<UserId>, userId: UserId)
    requires NoPercentOrEscape(pattern)
    requires LookupAgrees(rows, pattern, FirstRow(first))
    ensures IlikeMatches(rows, pattern) <= {userId} ==> !TakenByOther(first, userId)
    ensures IlikeMatches(rows, pattern) != {} && userId !in IlikeMatches(rows, pattern)
      ==> TakenByOther(first, userId)
  {
  }

  /**
    `setUsername({ username: input })` for the signed-in user `userId`. `lookup` is the
    store's answer to the uniqueness query and `upsertFails` says whether the write
    returns an error; both are the store's behaviour, outside this code.
  */
  method SetUsername(table: ProfilesTable, userId: UserId, input: string, lookup: Lookup, upsertFails: bool)
    returns (r: Result<bool, ActionError>)
    requires Username.Validate(Username.Normalize(Some(input))).ok ==>
      NoPercentOrEscape(Username.Normalize(Some(input))) &&
      LookupAgrees(table.rows, Username.Normalize(Some(input)), lookup)
    modifies table
    ensures r.Err? ==> table.rows == old(table.rows)
    ensures !Username.Validate(input).ok ==> r == Err(Thrown(Username.Validate(input).reason.value))
    ensures Username.Validate(input).ok && lookup.LookupFailed? ==> r == Err(DbError(UsernameLookup))
    ensures Username.Validate(input).ok && lookup.FirstRow? && TakenByOther(lookup.first, userId)
      ==> r == Err(Thrown(InUseMessage))
    ensures r.Ok? <==> Username.Validate(input).ok && lookup.FirstRow?
                       && !TakenByOther(lookup.first, userId) && !upsertFails
    ensures r.Ok? ==> r.value
    ensures r.Ok? ==>
      table.rows ==
      old(table.rows)[userId := ProfileRow(Some(Username.Normalize(Some(input))),
                                           if userId in old(table.rows) then old(table.rows)[userId].displayName else None)]
  {
    var normalized := Username.Normalize(Some(input));
    Username.ValidateIgnoresNormalization(input);
    var v := Username.Validate(normalized);
    if !v.ok {
      return Err(Thrown(v.reason.value));
    }
    r := ClaimUsername(table, userId, normalized, lookup, upsertFails);
  }

  /** The steps of `setUsername` after validation: the uniqueness guard, then the upsert. */
  method ClaimUsername(table: ProfilesTable, userId: UserId, normalized: string, lookup: Lookup, upsertFails: bool)
    returns (r: Result<bool, ActionError>)
    modifies table
    ensures r.Err? ==> table.rows == old(table.rows)
    ensures lookup.LookupFailed? ==> r == Err(DbError(UsernameLookup))
    ensures lookup.FirstRow? && TakenByOther(lookup.first, userId) ==> r == Err(Thrown(InUseMessage))
    ensures lookup.FirstRow? && !TakenByOther(lookup.first, userId) && upsertFails ==> r == Err(DbError(UsernameUpsert))
    ensures r.Ok? <==> lookup.FirstRow? && !TakenByOther(lookup.first, userId) && !upsertFails
    ensures r.Ok? ==> r.value
    ensures r.Ok? ==>
      table.rows ==
      old(table.rows)[userId := ProfileRow(Some(normalized),
                                           if userId in old(table.rows) then old(table.rows)[userId].displayName else None)]
  {
    if lookup.LookupFailed? {
      return Err(DbError(UsernameLookup));
    }
    if lookup.first.Some? && lookup.first.value != userId {
      return Err(Thrown(InUseMessage));
    }
    if upsertFails {
      return Err(DbError(UsernameUpsert));
    }
    table.UpsertUsername(userId, normalized);
    return Ok(true);
  }

  // ---------------------------------------------------------------------------
  // GET /api/profile/username/availability?q=

  /** The JSON reply of the availability endpoint with its status. */
  datatype AvailabilityReply =
    | Answer(available: bool, reason: Option<string>)    // status 200
    | StoreError(message: string)                        // status 500

  function StatusOf(reply: AvailabilityReply): int {
    if reply.StoreError? then 500 else 200
  }

  /**
    The availability endpoint reads `profiles` and nothing else: a missing `q` is the
    empty string, an invalid name is unavailable with the validator's reason, and a
    valid name is available exactly when no stored name matches it under `ilike`.
    `storeError` is the store's error for the lookup, if it fails.
  */
  function Availability(q: Option<string>, rows: map<UserId, ProfileRow>, storeError: Option<string>)
    : (reply: AvailabilityReply)
    ensures !Username.Validate(q.GetOr("")).ok ==>
      reply == Answer(false, Username.Validate(q.GetOr("")).reason) && StatusOf(reply) == 200
    ensures Username.Validate(q.GetOr("")).ok && storeError.Some? ==> reply == StoreError(storeError.value)
    ensures Username.Validate(q.GetOr("")).ok && storeError.None? ==>
      NoPercentOrEscape(Username.Normalize(Some(q.GetOr(""))))
      && reply == Answer(IlikeMatches(rows, Username.Normalize(Some(q.GetOr("")))) == {}, None)
  {
    var raw := q.GetOr("");
    var u := Username.Normalize(Some(raw));
    Username.ValidateIgnoresNormalization(raw);
    if !Username.Validate(raw).ok then Answer(false, Username.Validate(u).reason)
    else if storeError.Some? then StoreError(storeError.value)
    else
      Username.AcceptedNamesAreNormal(raw);
      Answer(IlikeMatches(rows, u) == {}, None)
  }

  /**
    The endpoint and the server action agree: a name reported available is one the
    guard of `setUsername` lets any user claim.
  */
  lemma {:induction false} AvailableMeansClaimable(q: string, rows: map<UserId, ProfileRow>, first: Option<UserId>, userId: UserId)
    requires Availability(Some(q), rows, None) == Answer(true, None)
    ensures Username.Validate(q).ok
    ensures NoPercentOrEscape(Username.Normalize(Some(q)))
    ensures LookupAgrees(rows, Username.Normalize(Some(q)), FirstRow(first)) ==> !TakenByOther(first, userId)
  {
    var u := Username.Normalize(Some(q));
    Username.ValidateIgnoresNormalization(q);
    Username.AcceptedNamesAreNormal(q);
    if LookupAgrees(rows, u, FirstRow(first)) {
      GuardDecides(rows, u, first, userId);
    }
  }

  // ---------------------------------------------------------------------------
  // POST /api/profile/update

  const TakenMessage: string := "이미 사용 중인 사용자명입니다"
  const UpdateFailedMessage: string := "프로필 업데이트에 실패했습니다"

  /** A string-valued JSON body field: absent, `null`, or a string. */
  datatype Field = Undefined | Null | Str(s: string)

  /** `if (x)` on a field. */
  predicate Truthy(f: Field) {
    f.Str? && f.s != ""
  }

  /** The parsed request body `{ username, display_name }`. */
  datatype UpdateBody = UpdateBody(username: Field, displayName: Field)

  /** The reply of the update endpoint. */
  datatype UpdateReply = Success | Taken | Failed   // 200, 400, 500

  /**
    The other users whose username equals `name` exactly
    (`.eq("username", name).neq("id", userId)`).
  */
  function OthersNamed(rows: map<UserId, ProfileRow>, userId: UserId, name: string): (ids: set<UserId>)
    ensures forall id :: id in ids <==> id in rows && id != userId && rows[id].username == Some(name)
  {
    set id | id in rows && id != userId && rows[id].username == Some(name)
  }

  /**
    `maybeSingle()` finds a row only when exactly one other user holds the name; with
    none it returns null, with several it returns an error that the route ignores.
  */
  predicate ExistingUserFound(rows: map<UserId, ProfileRow>, userId: UserId, name: string, lookupFails: bool) {
    !lookupFails && |OthersNamed(rows, userId, name)| == 1
  }

  /** The `updateData` object the route builds from the body. */
  function PatchOf(body: UpdateBody): (patch: Patch)
    ensures body.username.Undefined? <==> patch.username.None?
    ensures body.username.Str? ==> patch.username == Some(Some(body.username.s))
    ensures body.username.Null? ==> patch.username == Some(None)
    ensures body.displayName.Undefined? <==> patch.displayName.None?
    ensures !body.displayName.Undefined? ==>
      patch.displayName == Some(if Truthy(body.displayName) then Some(body.displayName.s) else None)
  {
    Patch(
      match body.username
        case Undefined => None
        case Null => Some(None)
        case Str(s) => Some(Some(s)),
      if body.displayName.Undefined? then None
      else if Truthy(body.displayName) then Some(Some(body.displayName.s))
      else Some(None))
  }

  /**
    `POST /api/profile/update` for `userId`. `body` is `None` when the request body is
    not JSON; `lookupFails` says whether the uniqueness query errs (the route ignores
    that error) and `updateFails` whether the write errs.
  */
  method UpdateProfile(table: ProfilesTable, userId: UserId, body: Option<UpdateBody>, lookupFails: bool, updateFails: bool)
    returns (reply: UpdateReply)
    modifies table
    ensures reply != Success ==> table.rows == old(table.rows)
    ensures reply == Taken <==>
      body.Some? && Truthy(body.value.username)
      && ExistingUserFound(old(table.rows), userId, body.value.username.s, lookupFails)
    ensures reply == Failed <==> body.None? || (reply != Taken && updateFails)
    ensures reply == Success ==> table.rows == Patched(old(table.rows), userId, PatchOf(body.value))
  {
    if body.None? {
      return Failed;
    }
    var b := body.value;
    var patch := Patch(None, None);
    if !b.username.Undefined? {
      if Truthy(b.username) && ExistingUserFound(table.rows, userId, b.username.s, lookupFails) {
        return Taken;
      }
      patch := patch.(username := Some(if b.username.Str? then Some(b.username.s) else None));
    }
    if !b.displayName.Undefined? {
      patch := patch.(displayName := Some(if Truthy(b.displayName) then Some(b.displayName.s) else None));
    }
    if updateFails {
      return Failed;
    }
    table.Update(userId, patch);
    return Success;
  }

  /** An absent username leaves the stored one alone; the other columns follow the body. */
  lemma AbsentUsernameUntouched(rows: map<UserId, ProfileRow>, userId: UserId, body: UpdateBody)
    requires body.username.Undefined? && userId in rows
    ensures Patched(rows, userId, PatchOf(body))[userId].username == rows[userId].username
  {
  }

  /**
    The update route performs no validation: an empty username skips the uniqueness
    query and is stored as it is, although `validateUsername` rejects it.
  */
  lemma UpdateStoresUnvalidatedNames(rows: map<UserId, ProfileRow>, userId: UserId, lookupFails: bool)
    requires userId in rows
    ensures var body := UpdateBody(Str(""), Undefined);
      && !Truthy(body.username)
      && Patched(rows, userId, PatchOf(body))[userId].username == Some("")
      && !Username.Validate("").ok
  {
  }
}
