/** The family service: links between users (`family_members`), requests to
    link (`family_requests`), the reciprocal relation written for the other
    side of a link, and the user search. The two tables and the users table
    are the fields of `FamilyDb`; the errors the database may answer with and
    the ids it assigns are parameters. */
module FamilyService {
  import opened Common

  datatype FamilyLink = FamilyLink(id: string, userId: string, memberId: string, relation: Option<string>)

  datatype RequestStatus = RequestPending | Approved | Rejected

  datatype FamilyRequest = FamilyRequest(
    id: string,
    fromUserId: string,
    toUserId: string,
    relation: string,
    status: RequestStatus,
    updatedAt: Option<int>)

  datatype UserRec = UserRec(id: string, name: Option<string>, phone: Option<string>, email: Option<string>)

  /** `{ success, error }` as the service returns it; a database error is carried as its message. */
  datatype Outcome = Ok | Failed(error: string)

  const AlreadyLinked := "already_linked"
  const RequestAlreadySent := "request_already_sent"
  const RequestNotFound := "request_not_found"
  const MemberNotFound := "member_not_found"

  // ---------------------------------------------------------------------
  // getReciprocalRelation

  /** The table of reciprocal relations, keyed by a lower-case relation; None outside it. */
  function ReciprocalOf(key: string): Option<string> {
    match key
    case "father" => Some("son/daughter")
    case "mother" => Some("son/daughter")
    case "son" => Some("father/mother")
    case "daughter" => Some("father/mother")
    case "brother" => Some("brother/sister")
    case "sister" => Some("brother/sister")
    case "husband" => Some("wife")
    case "wife" => Some("husband")
    case "grandfather" => Some("grandson/granddaughter")
    case "grandmother" => Some("grandson/granddaughter")
    case "uncle" => Some("nephew/niece")
    case "aunt" => Some("nephew/niece")
    case _ => None
  }

  /** `getReciprocalRelation`: the table entry of the lower-cased relation, "family" outside the table. */
  function ReciprocalRelation(relation: string): (r: string)
    ensures ReciprocalOf(Lower(relation)).None? ==> r == "family"
    ensures ReciprocalOf(Lower(relation)).Some? ==> r == ReciprocalOf(Lower(relation)).value
  {
    var entry := ReciprocalOf(Lower(relation));
    if entry.Some? && entry.value != "" then entry.value else "family"
  }

  lemma LowerCharIdempotent(c: char)
    ensures LowerChar(LowerChar(c)) == LowerChar(c)
  {
  }

  lemma LowerIdempotent(s: string)
    ensures Lower(Lower(s)) == Lower(s)
  {
    forall i | 0 <= i < |s|
      ensures Lower(Lower(s))[i] == Lower(s)[i]
    {
      LowerCharIdempotent(s[i]);
    }
  }

  /** The lookup ignores letter case. */
  lemma ReciprocalIgnoresCase(relation: string)
    ensures ReciprocalRelation(Lower(relation)) == ReciprocalRelation(relation)
  {
    LowerIdempotent(relation);
  }

  /** Text without upper-case ASCII letters is its own lower case. */
  lemma LowerOfLowerCase(s: string)
    requires forall i :: 0 <= i < |s| ==> !('A' <= s[i] <= 'Z')
    ensures Lower(s) == s
  {
  }

  /** Every written-back relation is one of the table's values or "family". */
  lemma ReciprocalValues(relation: string)
    ensures ReciprocalRelation(relation) in {"son/daughter", "father/mother", "brother/sister", "husband", "wife",
      "grandson/granddaughter", "nephew/niece", "family"}
  {
  }

  /** Husband and wife are each other's table entry. */
  lemma SpouseEntries()
    ensures ReciprocalOf("husband") == Some("wife") && ReciprocalOf("wife") == Some("husband")
    ensures Lower("husband") == "husband" && Lower("wife") == "wife"
  {
    LowerOfLowerCase("husband");
    LowerOfLowerCase("wife");
  }

  /** Only a spouse key has a spouse as its reciprocal. */
  lemma SpouseOnlyFromSpouse(key: string)
    ensures ReciprocalOf(key) == Some("wife") ==> key == "husband"
    ensures ReciprocalOf(key) == Some("husband") ==> key == "wife"
  {
  }

  /** No key of the table is longer than eleven characters. */
  lemma KeysAreShort(key: string)
    ensures ReciprocalOf(key).Some? ==> |key| <= 11
  {
  }

  /** The combined values and "family" are not keys of the table. */
  lemma ValuesAreNotKeys(v: string)
    requires v in {"son/daughter", "father/mother", "brother/sister", "grandson/granddaughter", "nephew/niece", "family"}
    ensures ReciprocalRelation(v) == "family"
  {
    if v == "family" {
      LowerOfLowerCase("family");
      assert ReciprocalOf("family") == None;
    } else {
      var lower := Lower(v);
      assert |lower| == |v| >= 12;
      KeysAreShort(lower);
    }
  }

  /** A relation other than a spouse is written back as a combined value or "family". */
  lemma NonSpouseValue(relation: string)
    requires Lower(relation) != "husband" && Lower(relation) != "wife"
    ensures ReciprocalRelation(relation) in
      {"son/daughter", "father/mother", "brother/sister", "grandson/granddaughter", "nephew/niece", "family"}
  {
    ReciprocalValues(relation);
    SpouseOnlyFromSpouse(Lower(relation));
  }

  lemma SpouseTwice(relation: string)
    requires Lower(relation) == "husband" || Lower(relation) == "wife"
    ensures ReciprocalRelation(ReciprocalRelation(relation)) == Lower(relation)
  {
    SpouseEntries();
    if Lower(relation) == "husband" {
      assert ReciprocalRelation(relation) == "wife";
    } else {
      assert ReciprocalRelation(relation) == "husband";
    }
  }

  /** Writing a relation back twice returns it only for spouses: every other relation, in the table or
      not, comes back as "family", because the table's combined values are not keys. */
  lemma ReciprocalTwice(relation: string)
    ensures ReciprocalRelation(ReciprocalRelation(relation)) ==
      if Lower(relation) == "husband" || Lower(relation) == "wife" then Lower(relation) else "family"
  {
    if Lower(relation) == "husband" || Lower(relation) == "wife" {
      SpouseTwice(relation);
    } else {
      NonSpouseValue(relation);
      ValuesAreNotKeys(ReciprocalRelation(relation));
    }
  }

  // ---------------------------------------------------------------------
  // findUsers

  /** The three lookups `findUsers` may issue; a failing lookup answers with no rows. */
  datatype Lookup = ByPhone | ByEmail | ByName

  /** At most ten users whose field satisfies p, in table order (`.limit(10)`). */
  function Lookup10(users: seq<UserRec>, p: UserRec -> bool): (r: seq<UserRec>)
    ensures |r| <= 10
    ensures forall u :: u in r ==> u in users && p(u)
    ensures |r| == (if |Filter(users, p)| < 10 then |Filter(users, p)| else 10)
    ensures r == Filter(users, p)[..|r|]
    ensures (exists u :: u in users && p(u)) ==> r != []
  {
    Take(Filter(users, p), 10)
  }

  predicate PhoneIs(id: string, u: UserRec) { u.phone == Some(id) }
  predicate EmailIs(id: string, u: UserRec) { u.email == Some(id) }
  /** `ilike('name', '%id%')`, with ASCII case folding. */
  predicate NameContains(id: string, u: UserRec) { u.name.Some? && Contains(Lower(u.name.value), Lower(id)) }

  predicate Matches(k: Lookup, id: string, u: UserRec) {
    match k
    case ByPhone => PhoneIs(id, u)
    case ByEmail => EmailIs(id, u)
    case ByName => NameContains(id, u)
  }

  /** Lookup k runs without failing and finds at least one row. */
  predicate Answers(k: Lookup, id: string, users: seq<UserRec>, failing: set<Lookup>) {
    k !in failing && exists u :: u in users && Matches(k, id, u)
  }

  /** `findUsers`: nothing for an empty identifier; else the first non-empty answer among exact phone,
      exact email and name substring. */
  function FindUsers(identifier: string, users: seq<UserRec>, failing: set<Lookup>): (r: seq<UserRec>)
    ensures identifier == "" ==> r == []
    ensures |r| <= 10
    ensures forall u :: u in r ==> u in users
    ensures identifier != "" && ByPhone !in failing && (exists u :: u in users && PhoneIs(identifier, u)) ==>
      r != [] && forall u :: u in r ==> PhoneIs(identifier, u)
    ensures forall u :: u in r && !PhoneIs(identifier, u) ==>
      (forall v :: v in users && PhoneIs(identifier, v) ==> ByPhone in failing)
    ensures forall u :: u in r ==> PhoneIs(identifier, u) || EmailIs(identifier, u) || NameContains(identifier, u)
    ensures identifier != "" && !Answers(ByPhone, identifier, users, failing) && Answers(ByEmail, identifier, users, failing) ==>
      r != [] && forall u :: u in r ==> EmailIs(identifier, u)
    ensures (identifier != "" && !Answers(ByPhone, identifier, users, failing) &&
             !Answers(ByEmail, identifier, users, failing) && Answers(ByName, identifier, users, failing)) ==>
      r != [] && forall u :: u in r ==> NameContains(identifier, u)
    ensures (!Answers(ByPhone, identifier, users, failing) && !Answers(ByEmail, identifier, users, failing) &&
             !Answers(ByName, identifier, users, failing)) ==> r == []
  {
    if identifier == "" then []
    else
      var phone := if ByPhone in failing then [] else Lookup10(users, u => PhoneIs(identifier, u));
      assert phone != [] ==> phone[0] in phone && Matches(ByPhone, identifier, phone[0]);
      if phone != [] then phone
      else
        var email := if ByEmail in failing then [] else Lookup10(users, u => EmailIs(identifier, u));
        assert email != [] ==> email[0] in email && Matches(ByEmail, identifier, email[0]);
        if email != [] then email
        else if ByName in failing then []
        else
          var name := Lookup10(users, u => NameContains(identifier, u));
          assert name != [] ==> name[0] in name && Matches(ByName, identifier, name[0]);
          name
  }

  // ---------------------------------------------------------------------
  // fetchFamilyMembers

  /** A linked member: the users row when found, else only its id. */
  datatype Member = KnownUser(user: UserRec) | IdOnly(id: string)

  datatype LinkedMember = LinkedMember(linkId: string, relation: Option<string>, member: Member)

  function MemberId(m: Member): string {
    match m
    case KnownUser(u) => u.id
    case IdOnly(id) => id
  }

  /** The users lookup of `fetchFamilyMembers` selects only `id, name, phone`: a row read there
      carries no email. */
  function IdNamePhone(users: seq<UserRec>): (r: seq<UserRec>)
    ensures |r| == |users|
    ensures forall i :: 0 <= i < |users| ==> r[i] == users[i].(email := None)
  {
    Map(users, (u: UserRec) => u.(email := None))
  }

  /** `users.find(u => u.id === id) ?? { id }`. */
  function FindMember(users: seq<UserRec>, id: string): (r: Member)
    ensures MemberId(r) == id
    ensures r.KnownUser? <==> exists u :: u in users && u.id == id
    ensures r.KnownUser? ==> r.user in users
  {
    if users == [] then IdOnly(id)
    else if users[0].id == id then KnownUser(users[0])
    else FindMember(users[1..], id)
  }

  class FamilyDb {
    var members: seq<FamilyLink>
    var requests: seq<FamilyRequest>
    var users: seq<UserRec>

    constructor (users: seq<UserRec>)
      ensures members == [] && requests == [] && this.users == users
    {
      members := [];
      requests := [];
      this.users := users;
    }

    predicate Linked(userId: string, memberId: string)
      reads this
    {
      exists l :: l in members && l.userId == userId && l.memberId == memberId
    }

    predicate PendingRequestExists(fromUserId: string, toUserId: string)
      reads this
    {
      exists r :: r in requests && r.fromUserId == fromUserId && r.toUserId == toUserId && r.status == RequestPending
    }

    /** No user is linked twice to the same member. */
    predicate NoDuplicateLinks()
      reads this
    {
      forall i, j :: 0 <= i < j < |members| ==>
        !(members[i].userId == members[j].userId && members[i].memberId == members[j].memberId)
    }

    /** The links of a user, in table order. */
    function LinksOf(userId: string): (r: seq<FamilyLink>)
      reads this
      ensures forall l :: l in r <==> l in members && l.userId == userId
    {
      Filter(members, (l: FamilyLink) => l.userId == userId)
    }

    /** `fetchFamilyMembers`: one entry per link of the user, each carrying that link's member id;
        nothing when the links lookup fails or there are none. */
    function FetchFamilyMembers(userId: string, linksFail: bool, usersFail: bool): (r: seq<LinkedMember>)
      reads this
      ensures linksFail || LinksOf(userId) == [] ==> r == []
      ensures !linksFail ==> |r| == |LinksOf(userId)|
      ensures !linksFail ==> forall i :: 0 <= i < |r| ==>
        r[i].linkId == LinksOf(userId)[i].id && r[i].relation == LinksOf(userId)[i].relation &&
        MemberId(r[i].member) == LinksOf(userId)[i].memberId
      ensures usersFail ==> forall i :: 0 <= i < |r| ==> r[i].member.IdOnly?
      ensures !linksFail && !usersFail ==> forall i :: 0 <= i < |r| ==>
        r[i].member == FindMember(IdNamePhone(users), LinksOf(userId)[i].memberId)
      ensures forall i :: 0 <= i < |r| && r[i].member.KnownUser? ==> r[i].member.user.email.None?
    {
      if linksFail then []
      else
        var links := LinksOf(userId);
        if links == [] then []
        else if usersFail then Map(links, (l: FamilyLink) => LinkedMember(l.id, l.relation, IdOnly(l.memberId)))
        else
          var known := IdNamePhone(users);
          assert forall u :: u in known ==> u.email.None?;
          Map(links, (l: FamilyLink) => LinkedMember(l.id, l.relation, FindMember(known, l.memberId)))
    }

    /** `addFamilyMemberById`. When the duplicate check answers, an existing link is refused with
        "already_linked"; otherwise one link is inserted unless the insert fails. */
    method AddFamilyMemberById(userId: string, memberId: string, relation: Option<string>,
                               checkFails: bool, newId: string, insertError: Option<string>)
      returns (r: Outcome)
      modifies this
      ensures !checkFails && old(Linked(userId, memberId)) ==> r == Failed(AlreadyLinked) && members == old(members)
      ensures (checkFails || !old(Linked(userId, memberId))) && insertError.Some? ==>
        r == Failed(insertError.value) && members == old(members)
      ensures (checkFails || !old(Linked(userId, memberId))) && insertError.None? ==>
        r == Ok && members == old(members) + [FamilyLink(newId, userId, memberId, relation)]
      ensures requests == old(requests) && users == old(users)
      ensures !checkFails && old(NoDuplicateLinks()) ==> NoDuplicateLinks()
    {
      var existing := !checkFails && Linked(userId, memberId);
      if existing {
        return Failed(AlreadyLinked);
      }
      if insertError.Some? {
        return Failed(insertError.value);
      }
      var link := FamilyLink(newId, userId, memberId, relation);
      members := members + [link];
      r := Ok;
      assert !checkFails ==> !old(Linked(userId, memberId));
    }

    /** `addFamilyMemberByIdentifier`: the first user found, linked by id, with the refusals of
        `addFamilyMemberById`; nothing found answers "member_not_found". */
    method AddFamilyMemberByIdentifier(userId: string, identifier: string, relation: Option<string>,
                                       failing: set<Lookup>, checkFails: bool, newId: string, insertError: Option<string>)
      returns (r: Outcome)
      modifies this
      ensures FindUsers(identifier, old(users), failing) == [] ==> r == Failed(MemberNotFound) && members == old(members)
      ensures FindUsers(identifier, old(users), failing) != [] && r == Ok ==>
        members == old(members) + [FamilyLink(newId, userId, FindUsers(identifier, old(users), failing)[0].id, relation)]
      ensures r != Ok ==> members == old(members)
      ensures var found := FindUsers(identifier, old(users), failing);
        found != [] && !checkFails && old(Linked(userId, found[0].id)) ==> r == Failed(AlreadyLinked)
      ensures var found := FindUsers(identifier, old(users), failing);
        found != [] && (checkFails || !old(Linked(userId, found[0].id))) && insertError.Some? ==>
          r == Failed(insertError.value)
      ensures var found := FindUsers(identifier, old(users), failing);
        found != [] ==> (r == Ok <==> (checkFails || !old(Linked(userId, found[0].id))) && insertError.None?)
      ensures requests == old(requests) && users == old(users)
      ensures !checkFails && old(NoDuplicateLinks()) ==> NoDuplicateLinks()
    {
      var found := FindUsers(identifier, users, failing);
      if found == [] {
        return Failed(MemberNotFound);
      }
      r := AddFamilyMemberById(userId, found[0].id, relation, checkFails, newId, insertError);
    }

    /** `removeFamilyMemberById`: every link from the user to the member goes. */
    method RemoveFamilyMemberById(userId: string, memberId: string, deleteError: Option<string>)
      returns (r: Outcome)
      modifies this
      ensures deleteError.Some? ==> r == Failed(deleteError.value) && members == old(members)
      ensures deleteError.None? ==> (r == Ok &&
        members == Filter(old(members), (l: FamilyLink) => !(l.userId == userId && l.memberId == memberId)))
      ensures deleteError.None? ==> !Linked(userId, memberId)
      ensures requests == old(requests) && users == old(users)
    {
      if deleteError.Some? {
        return Failed(deleteError.value);
      }
      members := Filter(members, (l: FamilyLink) => !(l.userId == userId && l.memberId == memberId));
      r := Ok;
    }

    /** `sendFamilyRequest`: "already_linked" is checked before "request_already_sent"; a lookup that
        fails answers no rows; on success exactly one pending request is added. */
    method SendFamilyRequest(fromUserId: string, toUserId: string, relation: string,
                             linkCheckFails: bool, pendingCheckFails: bool, newId: string, insertError: Option<string>)
      returns (r: Outcome)
      modifies this
      ensures !linkCheckFails && old(Linked(fromUserId, toUserId)) ==> r == Failed(AlreadyLinked)
      ensures ((linkCheckFails || !old(Linked(fromUserId, toUserId))) && !pendingCheckFails &&
        old(PendingRequestExists(fromUserId, toUserId))) ==> r == Failed(RequestAlreadySent)
      ensures r == Ok <==> ((linkCheckFails || !old(Linked(fromUserId, toUserId))) &&
        (pendingCheckFails || !old(PendingRequestExists(fromUserId, toUserId))) && insertError.None?)
      ensures r == Ok ==> requests == old(requests) + [FamilyRequest(newId, fromUserId, toUserId, relation, RequestPending, None)]
      ensures r != Ok ==> requests == old(requests)
      ensures members == old(members) && users == old(users)
    {
      var existing := !linkCheckFails && Linked(fromUserId, toUserId);
      if existing {
        return Failed(AlreadyLinked);
      }
      var pendingReq := !pendingCheckFails && PendingRequestExists(fromUserId, toUserId);
      if pendingReq {
        return Failed(RequestAlreadySent);
      }
      if insertError.Some? {
        return Failed(insertError.value);
      }
      requests := requests + [FamilyRequest(newId, fromUserId, toUserId, relation, RequestPending, None)];
      r := Ok;
    }

    /** The request `.single()` returns: the only row with the id, if exactly one has it. */
    function SingleRequest(requestId: string): (r: Option<FamilyRequest>)
      reads this
      ensures r.Some? ==> r.value in requests && r.value.id == requestId
      ensures r.Some? <==> |Filter(requests, (q: FamilyRequest) => q.id == requestId)| == 1
    {
      var rows := Filter(requests, (q: FamilyRequest) => q.id == requestId);
      if |rows| == 1 then assert rows[0] in rows; Some(rows[0]) else None
    }

    /** `approveFamilyRequest`: both links are inserted independently, and the request is marked
        approved (and the call succeeds) only if both inserts succeeded. The request's status is not
        consulted. */
    method ApproveFamilyRequest(requestId: string, newId1: string, link1Error: Option<string>,
                                newId2: string, link2Error: Option<string>, updateFails: bool, now: int)
      returns (r: Outcome)
      modifies this
      ensures old(SingleRequest(requestId)).None? ==> r == Failed(RequestNotFound) && members == old(members) && requests == old(requests)
      ensures old(SingleRequest(requestId)).Some? ==>
        var q := old(SingleRequest(requestId)).value;
        members == old(members)
          + (if link1Error.None? then [FamilyLink(newId1, q.fromUserId, q.toUserId, Some(q.relation))] else [])
          + (if link2Error.None? then [FamilyLink(newId2, q.toUserId, q.fromUserId, Some(ReciprocalRelation(q.relation)))] else [])
      ensures old(SingleRequest(requestId)).Some? ==>
        (r == Ok <==> link1Error.None? && link2Error.None?) &&
        (link1Error.Some? ==> r == Failed(link1Error.value)) &&
        (link1Error.None? && link2Error.Some? ==> r == Failed(link2Error.value))
      ensures r == Ok && !updateFails ==> requests == SetStatus(old(requests), requestId, Approved, now)
      ensures r != Ok || updateFails ==> requests == old(requests)
      ensures users == old(users)
    {
      var request := SingleRequest(requestId);
      if request.None? {
        return Failed(RequestNotFound);
      }
      var q := request.value;
      if link1Error.None? {
        members := members + [FamilyLink(newId1, q.fromUserId, q.toUserId, Some(q.relation))];
      }
      if link2Error.None? {
        members := members + [FamilyLink(newId2, q.toUserId, q.fromUserId, Some(ReciprocalRelation(q.relation)))];
      }
      if link1Error.Some? {
        return Failed(link1Error.value);
      }
      if link2Error.Some? {
        return Failed(link2Error.value);
      }
      if !updateFails {
        requests := SetStatus(requests, requestId, Approved, now);
      }
      r := Ok;
    }

    /** `rejectFamilyRequest`: mark rejected, then delete; a failed update deletes nothing. The
        delete's own error is not looked at. */
    method RejectFamilyRequest(requestId: string, updateError: Option<string>, deleteFails: bool, now: int)
      returns (r: Outcome)
      modifies this
      ensures updateError.Some? ==> r == Failed(updateError.value) && requests == old(requests)
      ensures updateError.None? && deleteFails ==> r == Ok && requests == SetStatus(old(requests), requestId, Rejected, now)
      ensures updateError.None? && !deleteFails ==> (r == Ok &&
        requests == Filter(old(requests), (q: FamilyRequest) => q.id != requestId))
      ensures updateError.None? && !deleteFails ==> forall q :: q in requests ==> q.id != requestId
      ensures members == old(members) && users == old(users)
    {
      if updateError.Some? {
        return Failed(updateError.value);
      }
      requests := SetStatus(requests, requestId, Rejected, now);
      if !deleteFails {
        requests := Filter(requests, (q: FamilyRequest) => q.id != requestId);
        DeleteAfterSetStatus(old(requests), requestId, Rejected, now);
      }
      r := Ok;
    }
  }

  /** `.update({status, updated_at}).eq('id', id)`: every row with the id gets the status and the time;
      the other rows are untouched. */
  function SetStatus(rs: seq<FamilyRequest>, id: string, status: RequestStatus, now: int): (r: seq<FamilyRequest>)
    ensures |r| == |rs|
    ensures forall i :: 0 <= i < |rs| && rs[i].id != id ==> r[i] == rs[i]
    ensures forall i :: 0 <= i < |rs| && rs[i].id == id ==> r[i] == rs[i].(status := status, updatedAt := Some(now))
  {
    Map(rs, (q: FamilyRequest) => if q.id == id then q.(status := status, updatedAt := Some(now)) else q)
  }

  /** Deleting the rows of an id after updating them removes the same rows as deleting them outright. */
  lemma {:induction false} DeleteAfterSetStatus(rs: seq<FamilyRequest>, id: string, status: RequestStatus, now: int)
    ensures Filter(SetStatus(rs, id, status, now), (q: FamilyRequest) => q.id != id) == Filter(rs, (q: FamilyRequest) => q.id != id)
  {
    if rs != [] {
      var t := SetStatus(rs, id, status, now);
      assert t[1..] == SetStatus(rs[1..], id, status, now);
      DeleteAfterSetStatus(rs[1..], id, status, now);
    }
  }

  /** A request found by id that is approved with both inserts succeeding leaves both directions linked. */
  lemma ApprovalLinksBothWays(db: FamilyDb, before: seq<FamilyLink>, q: FamilyRequest, id1: string, id2: string)
    requires db.members == before + [FamilyLink(id1, q.fromUserId, q.toUserId, Some(q.relation))]
      + [FamilyLink(id2, q.toUserId, q.fromUserId, Some(ReciprocalRelation(q.relation)))]
    ensures db.Linked(q.fromUserId, q.toUserId) && db.Linked(q.toUserId, q.fromUserId)
  {
    assert db.members[|before|] == FamilyLink(id1, q.fromUserId, q.toUserId, Some(q.relation));
    assert db.members[|before| + 1] == FamilyLink(id2, q.toUserId, q.fromUserId, Some(ReciprocalRelation(q.relation)));
  }
}
