/** The map-pin service: the status a new pin gets, the type names used in
    the database, who may confirm or delete a pin, and how database rows are
    turned back into pins. Database answers (tracker lookups, inserted rows,
    errors) are parameters; each operation reports the database call it
    issues, so "no call is made" can be stated. */
module Pins {
  import opened Common

  datatype PinType = Damaged | Safe

  datatype Status = Pending | Confirmed | Completed

  /** What the client submits for a new pin. */
  datatype CreatePinInput = CreatePinInput(
    pinType: PinType,
    status: Status,
    phone: string,
    description: string,
    lat: real,
    lng: real,
    createdBy: string,
    userId: Option<string>)

  /** A row of the `pins` table. `userId` is None when the column is left out or null. */
  datatype PinRow = PinRow(
    latitude: real,
    longitude: real,
    dbType: string,
    phone: string,
    description: string,
    status: Status,
    imageUrl: Option<string>,
    createdAt: int,
    userId: Option<string>)

  datatype Pin = Pin(
    id: string,
    pinType: PinType,
    status: Status,
    phone: string,
    description: string,
    lat: real,
    lng: real,
    createdBy: string,
    image: Option<string>,
    userId: Option<string>)

  /** The fields `updatePinStatus` sends. */
  datatype UpdateData = UpdateData(status: Status, confirmedBy: Option<string>, confirmedAt: Option<int>)

  /** The database call an operation issues. */
  datatype DbCall =
    | InsertPin(row: PinRow)
    | UpdatePin(pinId: string, data: UpdateData)
    | DeletePin(pinId: string)

  datatype Outcome = Outcome(success: bool, error: Option<string>)

  const OnlyTrackers := "Only trackers can confirm pins"
  const OnlyOrganizations := "Only organizations can delete pins"
  const Anonymous := "Anonymous User"

  // ---------------------------------------------------------------------
  // Types

  /** damaged -> damage, safe -> shelter, on the way into the database. */
  function ToDbType(t: PinType): string {
    match t
    case Damaged => "damage"
    case Safe => "shelter"
  }

  /** damage -> damaged, anything else -> safe, on the way out. */
  function FromDbType(s: string): PinType {
    if s == "damage" then Damaged else Safe
  }

  /** Writing a type and reading it back gives the same type, and only the two written names read back unchanged. */
  lemma TypeRoundTrip(t: PinType, s: string)
    ensures FromDbType(ToDbType(t)) == t
    ensures ToDbType(FromDbType(s)) == s <==> s == "damage" || s == "shelter"
  {
  }

  // ---------------------------------------------------------------------
  // createPin

  /** The status decision of `createPin`: pending without a user, confirmed for an
      active tracker or an organization, pending for everyone else. */
  method DecideStatus(userId: Option<string>, userRole: Option<string>, activeTrackers: set<string>)
    returns (status: Status)
    ensures status == Confirmed <==> Truthy(userId) && (userId.value in activeTrackers || userRole == Some("organization"))
    ensures status != Confirmed ==> status == Pending
  {
    status := Pending;
    if !Truthy(userId) {
      status := Pending;
    } else {
      var isTracker := userId.value in activeTrackers;
      if isTracker {
        status := Confirmed;
      } else if userRole == Some("organization") {
        status := Confirmed;
      } else {
        status := Pending;
      }
    }
  }

  /** What the database answers to the insert. */
  datatype InsertAnswer = InsertFailed(error: string) | Inserted(row: PinRow)

  /** `createPin` after the optional image upload: the row it inserts, and the pin it reports. */
  method CreatePin(pin: CreatePinInput, imageUrl: Option<string>, userRole: Option<string>,
                   activeTrackers: set<string>, now: int, inserted: InsertAnswer, newId: string)
    returns (call: DbCall, result: Outcome, created: Option<Pin>)
    ensures call.InsertPin?
    ensures call.row.status != Completed
    ensures call.row.status == Confirmed <==> Truthy(pin.userId) && (pin.userId.value in activeTrackers || userRole == Some("organization"))
    ensures call.row.dbType == ToDbType(pin.pinType)
    ensures call.row.userId == (if Truthy(pin.userId) then pin.userId else None)
    ensures call.row.latitude == pin.lat && call.row.longitude == pin.lng && call.row.createdAt == now
    ensures call.row.phone == pin.phone && call.row.description == pin.description && call.row.imageUrl == imageUrl
    ensures inserted.InsertFailed? ==> result == Outcome(false, Some(inserted.error)) && created.None?
    ensures inserted.Inserted? ==> result == Outcome(true, None) && created == Some(RowToCreated(newId, inserted.row, pin.createdBy, imageUrl))
  {
    var status := DecideStatus(pin.userId, userRole, activeTrackers);
    var dbType := ToDbType(pin.pinType);
    var row := PinRow(pin.lat, pin.lng, dbType, pin.phone, pin.description, status, imageUrl, now, None);
    if Truthy(pin.userId) {
      row := row.(userId := pin.userId);
    }
    call := InsertPin(row);
    if inserted.InsertFailed? {
      return call, Outcome(false, Some(inserted.error)), None;
    }
    result := Outcome(true, None);
    created := Some(RowToCreated(newId, inserted.row, pin.createdBy, imageUrl));
  }

  /** The pin `createPin` reports, built from the row the database returned. */
  function RowToCreated(id: string, data: PinRow, createdBy: string, imageUrl: Option<string>): (p: Pin)
    ensures p.pinType == FromDbType(data.dbType) && p.status == data.status
    ensures p.image == (if Truthy(imageUrl) then imageUrl else None)
  {
    Pin(id, FromDbType(data.dbType), data.status, data.phone, data.description, data.latitude, data.longitude,
        createdBy, if Truthy(imageUrl) then imageUrl else None, data.userId)
  }

  // ---------------------------------------------------------------------
  // updatePinStatus and deletePin

  /** `updatePinStatus`: confirming needs a user id and a member id and an active tracker; the
      update carries the confirmer only when confirming with a member id. */
  method UpdatePinStatus(pinId: string, newStatus: Status, confirmedByMemberId: Option<string>,
                         userId: Option<string>, activeTrackers: set<string>, now: int, dbError: Option<string>)
    returns (call: Option<DbCall>, result: Outcome)
    ensures newStatus == Confirmed && !(Truthy(userId) && Truthy(confirmedByMemberId) && userId.value in activeTrackers) ==>
      call.None? && result == Outcome(false, Some(OnlyTrackers))
    ensures newStatus != Confirmed || (Truthy(userId) && Truthy(confirmedByMemberId) && userId.value in activeTrackers) ==>
      call.Some? && call.value.UpdatePin? && call.value.pinId == pinId && call.value.data.status == newStatus &&
      (call.value.data.confirmedBy.Some? <==> newStatus == Confirmed && Truthy(confirmedByMemberId)) &&
      (call.value.data.confirmedBy.Some? ==> call.value.data.confirmedBy == confirmedByMemberId && call.value.data.confirmedAt == Some(now)) &&
      (call.value.data.confirmedBy.None? ==> call.value.data.confirmedAt.None?)
    ensures result.success <==> call.Some? && dbError.None?
    ensures call.Some? && dbError.Some? ==> result.error == dbError
  {
    if newStatus == Confirmed {
      if !Truthy(userId) || !Truthy(confirmedByMemberId) {
        return None, Outcome(false, Some(OnlyTrackers));
      }
      var isTracker := userId.value in activeTrackers;
      if !isTracker {
        return None, Outcome(false, Some(OnlyTrackers));
      }
    }
    var updateData := UpdateData(newStatus, None, None);
    if newStatus == Confirmed && Truthy(confirmedByMemberId) {
      updateData := updateData.(confirmedBy := confirmedByMemberId, confirmedAt := Some(now));
    }
    call := Some(UpdatePin(pinId, updateData));
    if dbError.Some? {
      return call, Outcome(false, dbError);
    }
    result := Outcome(true, None);
  }

  /** `deletePin`: only the organization role may delete, and otherwise nothing is sent. */
  method DeletePin(pinId: string, userRole: Option<string>, dbError: Option<string>)
    returns (call: Option<DbCall>, result: Outcome)
    ensures userRole != Some("organization") ==> call.None? && result == Outcome(false, Some(OnlyOrganizations))
    ensures userRole == Some("organization") ==> call == Some(DbCall.DeletePin(pinId))
    ensures result.success <==> call.Some? && dbError.None?
    ensures call.Some? && dbError.Some? ==> result.error == dbError
  {
    if userRole != Some("organization") {
      return None, Outcome(false, Some(OnlyOrganizations));
    }
    call := Some(DbCall.DeletePin(pinId));
    if dbError.Some? {
      return call, Outcome(false, dbError);
    }
    result := Outcome(true, None);
  }

  // ---------------------------------------------------------------------
  // fetchPins

  /** A stored row with its id. */
  datatype StoredPin = StoredPin(id: string, row: PinRow)

  datatype UserRow = UserRow(id: string, name: string)

  /** The truthy user ids of the rows. */
  function OwnerIds(rows: seq<StoredPin>): seq<string> {
    if rows == [] then []
    else OwnerIds(rows[..|rows| - 1]) + (if Truthy(rows[|rows| - 1].row.userId) then [rows[|rows| - 1].row.userId.value] else [])
  }

  /** `[...new Set(ids)]`: the first occurrence of each id, in order. */
  function Dedup(ids: seq<string>): seq<string> {
    if ids == [] then []
    else
      var rest := Dedup(ids[..|ids| - 1]);
      if ids[|ids| - 1] in rest then rest else rest + [ids[|ids| - 1]]
  }

  /** The ids looked up are distinct, and they are exactly the truthy owner ids. */
  lemma {:induction false} DedupSpec(ids: seq<string>)
    ensures forall i, j :: 0 <= i < j < |Dedup(ids)| ==> Dedup(ids)[i] != Dedup(ids)[j]
    ensures forall x :: x in Dedup(ids) <==> x in ids
  {
    if ids != [] {
      var init := ids[..|ids| - 1];
      DedupSpec(init);
      assert ids == init + [ids[|ids| - 1]];
    }
  }

  lemma {:induction false} OwnerIdsSpec(rows: seq<StoredPin>)
    ensures forall x :: x in OwnerIds(rows) <==> exists i :: 0 <= i < |rows| && Truthy(rows[i].row.userId) && rows[i].row.userId.value == x
  {
    if rows != [] {
      var n := |rows| - 1;
      OwnerIdsSpec(rows[..n]);
      forall x | x in OwnerIds(rows)
        ensures exists i :: 0 <= i < |rows| && Truthy(rows[i].row.userId) && rows[i].row.userId.value == x
      {
        if x in OwnerIds(rows[..n]) {
          var i :| 0 <= i < n && Truthy(rows[..n][i].row.userId) && rows[..n][i].row.userId.value == x;
          assert rows[..n][i] == rows[i];
        }
      }
      forall x | exists i :: 0 <= i < |rows| && Truthy(rows[i].row.userId) && rows[i].row.userId.value == x
        ensures x in OwnerIds(rows)
      {
        var i :| 0 <= i < |rows| && Truthy(rows[i].row.userId) && rows[i].row.userId.value == x;
        if i < n {
          assert rows[..n][i] == rows[i];
        }
      }
    }
  }

  /** The ids `fetchPins` looks up: each once, and exactly the truthy owners of the rows. */
  lemma LookedUpOwners(rows: seq<StoredPin>)
    ensures forall i, j :: 0 <= i < j < |Dedup(OwnerIds(rows))| ==> Dedup(OwnerIds(rows))[i] != Dedup(OwnerIds(rows))[j]
    ensures forall x :: x in Dedup(OwnerIds(rows)) <==>
      exists i :: 0 <= i < |rows| && Truthy(rows[i].row.userId) && rows[i].row.userId.value == x
  {
    DedupSpec(OwnerIds(rows));
    OwnerIdsSpec(rows);
  }

  /** `Object.fromEntries(users.map(u => [u.id, {name: u.name}]))`: a later entry for an id replaces an earlier one. */
  function UserMap(users: seq<UserRow>): map<string, string> {
    if users == [] then map[]
    else UserMap(users[..|users| - 1])[users[|users| - 1].id := users[|users| - 1].name]
  }

  lemma {:induction false} UserMapKeys(users: seq<UserRow>)
    ensures forall id :: id in UserMap(users) <==> exists i :: 0 <= i < |users| && users[i].id == id
  {
    if users != [] {
      var n := |users| - 1;
      UserMapKeys(users[..n]);
      assert forall i :: 0 <= i < n ==> users[..n][i] == users[i];
    }
  }

  /** `(row.user_id && userMap[row.user_id]?.name) || 'Anonymous User'`. */
  function CreatedBy(userId: Option<string>, userMap: map<string, string>): (r: string)
    ensures Truthy(userId) && userId.value in userMap && userMap[userId.value] != "" ==> r == userMap[userId.value]
    ensures !(Truthy(userId) && userId.value in userMap && userMap[userId.value] != "") ==> r == Anonymous
  {
    if Truthy(userId) && userId.value in userMap && userMap[userId.value] != "" then userMap[userId.value] else Anonymous
  }

  function RowToPin(p: StoredPin, userMap: map<string, string>): (r: Pin)
    ensures r.id == p.id && r.pinType == FromDbType(p.row.dbType) && r.status == p.row.status
    ensures r.createdBy == CreatedBy(p.row.userId, userMap)
    ensures r.image == (if Truthy(p.row.imageUrl) then p.row.imageUrl else None)
  {
    Pin(p.id, FromDbType(p.row.dbType), p.row.status, p.row.phone, p.row.description, p.row.latitude,
        p.row.longitude, CreatedBy(p.row.userId, userMap), if Truthy(p.row.imageUrl) then p.row.imageUrl else None,
        p.row.userId)
  }

  /** The answers `fetchPins` gets: the rows (or an error), and the user lookup (or an error). */
  datatype RowsAnswer = RowsError(message: string) | NoRows | Rows(rows: seq<StoredPin>)
  datatype UsersAnswer = UsersError(message: string) | NoUsers | Users(users: seq<UserRow>)

  datatype FetchResult = FetchFailed(error: string) | Fetched(pins: seq<Pin>)

  /** The name map `fetchPins` builds: empty unless some pin has an owner and the lookup answered. */
  function NameMap(rows: seq<StoredPin>, users: UsersAnswer): map<string, string> {
    if Dedup(OwnerIds(rows)) != [] && users.Users? then UserMap(users.users) else map[]
  }

  /** `fetchPins`. */
  function FetchPins(answer: RowsAnswer, users: UsersAnswer): (r: FetchResult)
    ensures answer.RowsError? ==> r.FetchFailed?
    ensures answer.NoRows? ==> r == Fetched([])
    ensures answer.Rows? ==> (r.Fetched? && |r.pins| == |answer.rows| &&
      forall i :: 0 <= i < |answer.rows| ==> r.pins[i] == RowToPin(answer.rows[i], NameMap(answer.rows, users)))
  {
    match answer
    case RowsError(m) => FetchFailed("Failed to fetch pins: " + (if m != "" then m else "Unknown error"))
    case NoRows => Fetched([])
    case Rows(rows) =>
      var userMap := NameMap(rows, users);
      Fetched(Map(rows, (p: StoredPin) => RowToPin(p, userMap)))
  }

  /** A pin without an owner, or whose owner the lookup did not name, shows as "Anonymous User". */
  lemma AnonymousWithoutKnownOwner(p: StoredPin, rows: seq<StoredPin>, users: UsersAnswer)
    requires !Truthy(p.row.userId) || users.UsersError? || users.NoUsers?
    ensures RowToPin(p, NameMap(rows, users)).createdBy == Anonymous
  {
  }
}
