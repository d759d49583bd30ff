/** The family tab: the list that merges linked family members with the
    link requests the user has sent, the safety check ("are you OK?") with
    its response window, the mm:ss countdown, and the bridge that forwards
    each safety-check notification once per run of its effect. Times are
    integer milliseconds. */
module FamilyTab {
  import opened Common

  datatype SafetyStatus = Unknown | SafeStatus | Danger

  /** A linked family member as the tab holds it; fields the tab does not reason about are left out. */
  datatype FamilyMember = FamilyMember(
    id: string,
    name: Option<string>,
    status: Option<SafetyStatus>,
    safetyStatus: Option<SafetyStatus>,
    checkStartedAt: Option<int>,
    checkExpiresAt: Option<int>,
    activeCheckStartedAt: Option<int>)

  datatype Receiver = Receiver(name: Option<string>, phone: Option<string>)

  /** A family link request the user has sent. */
  datatype SentRequest = SentRequest(id: string, toUserId: string, status: string, relation: string, receiver: Option<Receiver>)

  /** An entry of the merged list: a linked member, or a member invited by a still-pending request. */
  datatype Entry =
    | Linked(member: FamilyMember)
    | Invited(id: string, name: string, phone: string, requestId: string, relation: string)

  function EntryId(e: Entry): string {
    match e
    case Linked(m) => m.id
    case Invited(id, _, _, _, _) => id
  }

  /** The entry a pending request adds: receiver name or "Unknown", receiver phone or "". */
  function InviteOf(r: SentRequest): (e: Entry)
    ensures EntryId(e) == r.toUserId
  {
    var name := if r.receiver.Some? then OrElse(r.receiver.value.name, "Unknown") else "Unknown";
    var phone := if r.receiver.Some? then OrElse(r.receiver.value.phone, "") else "";
    Invited(r.toUserId, name, phone, r.id, r.relation)
  }

  predicate IsFamilyId(family: seq<FamilyMember>, id: string) {
    exists m :: m in family && m.id == id
  }

  predicate DistinctIds(entries: seq<Entry>) {
    forall i, j :: 0 <= i < j < |entries| ==> EntryId(entries[i]) != EntryId(entries[j])
  }

  /** What the merged list keeps true of a key-to-entry map: linked entries come from the family,
      invited entries from pending requests to someone not in the family. */
  ghost predicate EntriesWellFormed(m: map<string, Entry>, family: seq<FamilyMember>, sent: seq<SentRequest>) {
    forall k :: k in m ==>
      EntryId(m[k]) == k &&
      (m[k].Linked? ==> m[k].member in family) &&
      (m[k].Invited? ==> !IsFamilyId(family, k) && exists r :: r in sent && r.status == "pending" && m[k] == InviteOf(r))
  }

  /** Every entry of the map is a linked member of the family, under its own id. */
  ghost predicate AllLinked(m: map<string, Entry>, family: seq<FamilyMember>) {
    forall k :: k in m ==> EntryId(m[k]) == k && m[k].Linked? && m[k].member in family
  }

  lemma AllLinkedWellFormed(m: map<string, Entry>, family: seq<FamilyMember>, sent: seq<SentRequest>)
    requires AllLinked(m, family)
    requires forall f :: f in family ==> f.id in m
    ensures EntriesWellFormed(m, family, sent)
    ensures forall f :: f in family ==> f.id in m && m[f.id].Linked?
  {
  }

  /** The first loop of `mergedMembers`: every linked member under its id. */
  method AddLinked(family: seq<FamilyMember>) returns (keys: seq<string>, memberMap: map<string, Entry>)
    ensures KeysInOrder(keys, memberMap)
    ensures AllLinked(memberMap, family)
    ensures forall f :: f in family ==> f.id in memberMap
  {
    keys := [];
    memberMap := map[];
    for i := 0 to |family|
      invariant KeysInOrder(keys, memberMap)
      invariant forall k :: k in memberMap ==> EntryId(memberMap[k]) == k && memberMap[k].Linked? && memberMap[k].member in family
      invariant forall j :: 0 <= j < i ==> family[j].id in memberMap
    {
      var f := family[i];
      if f.id !in memberMap {
        keys := keys + [f.id];
      }
      memberMap := memberMap[f.id := Linked(f)];
    }
  }

  /** The second loop of `mergedMembers`: a pending request adds its recipient unless already present. */
  method AddInvites(keys0: seq<string>, map0: map<string, Entry>, family: seq<FamilyMember>, sent: seq<SentRequest>)
    returns (keys: seq<string>, memberMap: map<string, Entry>)
    requires KeysInOrder(keys0, map0)
    requires EntriesWellFormed(map0, family, sent)
    requires forall f :: f in family ==> f.id in map0 && map0[f.id].Linked?
    ensures KeysInOrder(keys, memberMap)
    ensures EntriesWellFormed(memberMap, family, sent)
    ensures forall f :: f in family ==> f.id in memberMap && memberMap[f.id].Linked?
    ensures forall r :: r in sent && r.status == "pending" ==> r.toUserId in memberMap
    ensures forall k :: k in memberMap ==> EntryId(memberMap[k]) == k
  {
    keys, memberMap := keys0, map0;
    for i := 0 to |sent|
      invariant KeysInOrder(keys, memberMap)
      invariant EntriesWellFormed(memberMap, family, sent)
      invariant forall f :: f in family ==> f.id in memberMap && memberMap[f.id].Linked?
      invariant forall j :: 0 <= j < i && sent[j].status == "pending" ==> sent[j].toUserId in memberMap
    {
      var req := sent[i];
      var memberId := req.toUserId;
      if req.status == "pending" && memberId !in memberMap {
        keys := keys + [memberId];
        memberMap := memberMap[memberId := InviteOf(req)];
      }
    }
  }

  /** What the merged list promises: one entry per id; each linked member present as itself; each
      invited entry made from a pending request to someone outside the family; and each pending
      request's recipient present. */
  ghost predicate MergedWellFormed(family: seq<FamilyMember>, sent: seq<SentRequest>, merged: seq<Entry>) {
    DistinctIds(merged) &&
    (forall f :: f in family ==> exists e :: e in merged && e.Linked? && e.member.id == f.id) &&
    (forall e :: e in merged ==> ((e.Linked? ==> e.member in family) &&
      (e.Invited? ==> !IsFamilyId(family, e.id) && exists r :: r in sent && r.status == "pending" && e == InviteOf(r)))) &&
    (forall r :: r in sent && r.status == "pending" ==> exists e :: e in merged && EntryId(e) == r.toUserId)
  }

  /** `mergedMembers`: nothing without a signed-in user; otherwise every linked member, then an entry
      for each pending sent request whose recipient is not already present, at most one entry per id. */
  method MergedMembers(userId: Option<string>, family: seq<FamilyMember>, sent: seq<SentRequest>)
    returns (merged: seq<Entry>)
    ensures !Truthy(userId) ==> merged == []
    ensures Truthy(userId) ==> MergedWellFormed(family, sent, merged)
  {
    if !Truthy(userId) {
      return [];
    }
    var keys, memberMap := AddLinked(family);
    AllLinkedWellFormed(memberMap, family, sent);
    keys, memberMap := AddInvites(keys, memberMap, family, sent);
    merged := ValuesInOrder(keys, memberMap);
    MergedFromMap(keys, memberMap, family, sent);
  }

  lemma MergedFromMap(keys: seq<string>, m: map<string, Entry>, family: seq<FamilyMember>, sent: seq<SentRequest>)
    requires KeysInOrder(keys, m)
    requires EntriesWellFormed(m, family, sent)
    requires forall f :: f in family ==> f.id in m && m[f.id].Linked?
    requires forall r :: r in sent && r.status == "pending" ==> r.toUserId in m
    requires forall k :: k in m ==> EntryId(m[k]) == k
    ensures MergedWellFormed(family, sent, ValuesInOrder(keys, m))
  {
    MergedDistinct(keys, m);
    MergedEntriesFrom(keys, m, family, sent);
    MergedHasFamily(keys, m, family);
    MergedHasPending(keys, m, sent);
  }

  lemma MergedDistinct(keys: seq<string>, m: map<string, Entry>)
    requires KeysInOrder(keys, m)
    requires forall k :: k in m ==> EntryId(m[k]) == k
    ensures DistinctIds(ValuesInOrder(keys, m))
  {
  }

  lemma MergedEntriesFrom(keys: seq<string>, m: map<string, Entry>, family: seq<FamilyMember>, sent: seq<SentRequest>)
    requires KeysInOrder(keys, m)
    requires EntriesWellFormed(m, family, sent)
    ensures forall e :: e in ValuesInOrder(keys, m) ==> ((e.Linked? ==> e.member in family) &&
      (e.Invited? ==> !IsFamilyId(family, e.id) && exists r :: r in sent && r.status == "pending" && e == InviteOf(r)))
  {
    var merged := ValuesInOrder(keys, m);
    forall e | e in merged
      ensures (e.Linked? ==> e.member in family) &&
        (e.Invited? ==> !IsFamilyId(family, e.id) && exists r :: r in sent && r.status == "pending" && e == InviteOf(r))
    {
      var i :| 0 <= i < |merged| && merged[i] == e;
      assert keys[i] in m;
      assert m[keys[i]] == e;
    }
  }

  lemma MergedHasFamily(keys: seq<string>, m: map<string, Entry>, family: seq<FamilyMember>)
    requires KeysInOrder(keys, m)
    requires forall k :: k in m ==> EntryId(m[k]) == k
    requires forall f :: f in family ==> f.id in m && m[f.id].Linked?
    ensures forall f :: f in family ==> exists e :: e in ValuesInOrder(keys, m) && e.Linked? && e.member.id == f.id
  {
    var merged := ValuesInOrder(keys, m);
    forall f | f in family
      ensures exists e :: e in merged && e.Linked? && e.member.id == f.id
    {
      var i :| 0 <= i < |keys| && keys[i] == f.id;
      assert merged[i] in merged;
    }
  }

  lemma MergedHasPending(keys: seq<string>, m: map<string, Entry>, sent: seq<SentRequest>)
    requires KeysInOrder(keys, m)
    requires forall k :: k in m ==> EntryId(m[k]) == k
    requires forall r :: r in sent && r.status == "pending" ==> r.toUserId in m
    ensures forall r :: r in sent && r.status == "pending" ==> exists e :: e in ValuesInOrder(keys, m) && EntryId(e) == r.toUserId
  {
    var merged := ValuesInOrder(keys, m);
    forall r | r in sent && r.status == "pending"
      ensures exists e :: e in merged && EntryId(e) == r.toUserId
    {
      var i :| 0 <= i < |keys| && keys[i] == r.toUserId;
      assert merged[i] in merged;
    }
  }

  // ---------------------------------------------------------------------
  // Sending a safety check and receiving the answer

  /** `handleSendSafetyCheck` once the check was sent: the member asked becomes "unknown" and gets a
      window from now to now + the server's duration (300 s when the server gives no number). */
  function StartSafetyCheck(members: seq<FamilyMember>, memberId: string, durationSeconds: Option<int>, now: int)
    : (r: seq<FamilyMember>)
    ensures |r| == |members|
    ensures forall i :: 0 <= i < |members| && members[i].id != memberId ==> r[i] == members[i]
    ensures forall i :: 0 <= i < |members| && members[i].id == memberId ==>
      r[i].id == memberId && r[i].status == Some(Unknown) && r[i].safetyStatus == Some(Unknown) &&
      r[i].checkStartedAt == Some(now) && r[i].activeCheckStartedAt == Some(now) &&
      r[i].checkExpiresAt == Some(now + (if durationSeconds.Some? then durationSeconds.value else 300) * 1000)
  {
    var secs := if durationSeconds.Some? then durationSeconds.value else 300;
    Map(members, (m: FamilyMember) =>
      if m.id == memberId then
        m.(status := Some(Unknown), safetyStatus := Some(Unknown), checkStartedAt := Some(now),
           checkExpiresAt := Some(now + secs * 1000), activeCheckStartedAt := Some(now))
      else m)
  }

  /** The whole send: nothing without a user or when sending failed. */
  function SendSafetyCheck(userId: Option<string>, sendSucceeded: bool, members: seq<FamilyMember>,
                           memberId: string, durationSeconds: Option<int>, now: int): (r: seq<FamilyMember>)
    ensures !Truthy(userId) || !sendSucceeded ==> r == members
    ensures Truthy(userId) && sendSucceeded ==> r == StartSafetyCheck(members, memberId, durationSeconds, now)
  {
    if !Truthy(userId) || !sendSucceeded then members
    else StartSafetyCheck(members, memberId, durationSeconds, now)
  }

  datatype NotificationType = SafetyCheckOk | SafetyCheckNotOk | FamilyRequestAccepted | FamilyRequestRejected | OtherType

  datatype Notification = Notification(id: string, kind: NotificationType, responderId: Option<string>, createdAt: int)

  /** The start of a member's current window: the local start, else the server's. */
  function WindowStart(m: FamilyMember): Option<int> {
    if m.activeCheckStartedAt.Some? then m.activeCheckStartedAt else m.checkStartedAt
  }

  /** One member's update for a safety answer. */
  function Answered(m: FamilyMember, n: Notification): FamilyMember {
    var started := WindowStart(m);
    if started.Some? && n.createdAt < started.value then m
    else
      var mapped := if n.kind == SafetyCheckNotOk then Danger else SafeStatus;
      m.(status := Some(mapped), safetyStatus := Some(mapped))
  }

  /** The safety-answer handler: ignored without a responder; only the responder changes, and only
      with an answer no older than its window's start; "not ok" means danger, "ok" means safe. */
  function ApplySafetyAnswer(members: seq<FamilyMember>, n: Notification): (r: seq<FamilyMember>)
    requires n.kind == SafetyCheckOk || n.kind == SafetyCheckNotOk
    ensures |r| == |members|
    ensures !Truthy(n.responderId) ==> r == members
    ensures forall i :: 0 <= i < |members| && !(Truthy(n.responderId) && members[i].id == n.responderId.value) ==> r[i] == members[i]
    ensures forall i :: 0 <= i < |members| && WindowStart(members[i]).Some? && n.createdAt < WindowStart(members[i]).value ==>
      r[i] == members[i]
    ensures Truthy(n.responderId) ==> forall i :: (0 <= i < |members| && members[i].id == n.responderId.value &&
      !(WindowStart(members[i]).Some? && n.createdAt < WindowStart(members[i]).value)) ==>
        r[i] == members[i].(status := r[i].status, safetyStatus := r[i].status) &&
        r[i].status == Some(if n.kind == SafetyCheckNotOk then Danger else SafeStatus)
  {
    if !Truthy(n.responderId) then members
    else
      var responder := n.responderId.value;
      Map(members, (m: FamilyMember) => if m.id != responder then m else Answered(m, n))
  }

  /** An answer from a window that ended before the current one started never changes the status. */
  lemma StaleAnswerIgnored(members: seq<FamilyMember>, n: Notification, k: nat)
    requires n.kind == SafetyCheckOk || n.kind == SafetyCheckNotOk
    requires k < |members| && WindowStart(members[k]).Some? && n.createdAt < WindowStart(members[k]).value
    ensures ApplySafetyAnswer(members, n)[k].status == members[k].status
  {
  }

  /** A check just started accepts the member's answer sent at or after its start. */
  lemma AnswerAfterStartCounts(members: seq<FamilyMember>, memberId: string, duration: Option<int>, now: int,
                               n: Notification, k: nat)
    requires n.kind == SafetyCheckNotOk && n.responderId == Some(memberId) && memberId != "" && n.createdAt >= now
    requires k < |members| && members[k].id == memberId
    ensures ApplySafetyAnswer(StartSafetyCheck(members, memberId, duration, now), n)[k].status == Some(Danger)
  {
    var started := StartSafetyCheck(members, memberId, duration, now);
    assert WindowStart(started[k]) == Some(now);
  }

  // ---------------------------------------------------------------------
  // The response window and the countdown

  /** `serverWindowActive`: false without an expiry, else whether now is before it. */
  function ServerWindowActive(expiresAt: Option<int>, now: int): (r: bool)
    ensures r <==> expiresAt.Some? && now < expiresAt.value
  {
    if expiresAt.None? then false else now < expiresAt.value
  }

  /** What `renderSafetyControl` shows: the badge while a window is active and a status is set,
      otherwise the button (disabled while a window is active). */
  datatype SafetyControl = Badge(status: SafetyStatus, countdownTo: Option<int>) | AskButton(disabled: bool, countdownTo: Option<int>)

  function RenderSafetyControl(m: FamilyMember, now: int): (r: SafetyControl)
    ensures r.Badge? <==> ServerWindowActive(m.checkExpiresAt, now) && m.status.Some?
    ensures r.AskButton? ==> r.disabled == ServerWindowActive(m.checkExpiresAt, now)
    ensures r.countdownTo.Some? <==> ServerWindowActive(m.checkExpiresAt, now)
  {
    var active := ServerWindowActive(m.checkExpiresAt, now);
    if active && m.status.Some? then Badge(m.status.value, m.checkExpiresAt)
    else AskButton(active, if active then m.checkExpiresAt else None)
  }

  /** The whole seconds left, never negative. */
  function SecondsLeft(expiresAt: Option<int>, now: int): (s: nat)
    ensures expiresAt.None? || expiresAt.value <= now ==> s == 0
    ensures expiresAt.Some? && expiresAt.value > now ==> s * 1000 <= expiresAt.value - now < (s + 1) * 1000
  {
    if expiresAt.None? then 0
    else if expiresAt.value - now <= 0 then 0
    else (expiresAt.value - now) / 1000
  }

  /** `Countdown`: mm:ss, each part zero-padded to two digits. */
  function Countdown(expiresAt: Option<int>, now: int): (r: string)
    ensures |r| >= 5
  {
    var totalSec := SecondsLeft(expiresAt, now);
    PadTwo(totalSec / 60) + ":" + PadTwo(totalSec % 60)
  }

  /** Reading the two parts of the countdown back gives the minutes and the seconds left. */
  lemma CountdownRoundTrip(expiresAt: Option<int>, now: int)
    ensures var s := SecondsLeft(expiresAt, now);
      var r := Countdown(expiresAt, now);
      var colon := |PadTwo(s / 60)|;
      r[colon] == ':' &&
      DigitsValue(r[..colon]) == s / 60 && DigitsValue(r[colon + 1..]) == s % 60 &&
      DigitsValue(r[..colon]) * 60 + DigitsValue(r[colon + 1..]) == s
  {
    var s := SecondsLeft(expiresAt, now);
    var mm := PadTwo(s / 60);
    var ss := PadTwo(s % 60);
    var r := Countdown(expiresAt, now);
    assert r == mm + ":" + ss;
    assert r[..|mm|] == mm;
    assert r[|mm| + 1..] == ss;
    PadTwoRoundTrip(s / 60);
    PadTwoRoundTrip(s % 60);
  }

  /** An expired or absent window shows 00:00. */
  lemma CountdownAtZero(expiresAt: Option<int>, now: int)
    requires expiresAt.None? || expiresAt.value <= now
    ensures Countdown(expiresAt, now) == "00:00"
  {
    assert NatToString(0) == "0";
  }

  // ---------------------------------------------------------------------
  // NotificationsBridge

  function IdsOf(ns: seq<Notification>): set<string> {
    set i | 0 <= i < |ns| :: ns[i].id
  }

  predicate IsSafetyAnswer(n: Notification) {
    n.kind == SafetyCheckOk || n.kind == SafetyCheckNotOk
  }

  /** The notifications a bridge that has already seen `seen` forwards from `ns`, in order: each
      safety answer whose id it has not seen before, counting the earlier ones of `ns`. */
  function Forwarded(seen: set<string>, ns: seq<Notification>): seq<Notification> {
    if ns == [] then []
    else
      var init := ns[..|ns| - 1];
      var n := ns[|ns| - 1];
      Forwarded(seen, init) + (if n.id !in seen + IdsOf(init) && IsSafetyAnswer(n) then [n] else [])
  }

  lemma IdsOfStep(ns: seq<Notification>, i: nat)
    requires i < |ns|
    ensures IdsOf(ns[..i + 1]) == IdsOf(ns[..i]) + {ns[i].id}
  {
    assert ns[..i + 1][i] == ns[i];
    assert forall j :: 0 <= j < i ==> ns[..i + 1][j] == ns[..i][j];
  }

  /** One run of `NotificationsBridge`'s effect: the set of handled notification ids, and what it
      passed on. The effect starts over with an empty set whenever it re-runs, which is a new
      `Bridge` here, so the at-most-once promise holds within one run only. */
  class Bridge {
    var processed: set<string>
    ghost var forwarded: seq<Notification>

    /** Every forwarded notification is a safety answer, was handled, and no id was forwarded twice. */
    ghost predicate Valid()
      reads this
    {
      (forall i, j :: 0 <= i < j < |forwarded| ==> forwarded[i].id != forwarded[j].id) &&
      (forall f :: f in forwarded ==> f.id in processed && IsSafetyAnswer(f))
    }

    constructor ()
      ensures processed == {} && forwarded == [] && Valid()
    {
      processed := {};
      forwarded := [];
    }

    /** `handle`: a notification seen before is dropped; otherwise it is marked seen and forwarded
        when it is a safety answer. Returns whether it was forwarded. */
    method Handle(n: Notification) returns (forward: bool)
      requires Valid()
      modifies this
      ensures Valid()
      ensures forward <==> n.id !in old(processed) && IsSafetyAnswer(n)
      ensures processed == old(processed) + {n.id}
      ensures forwarded == old(forwarded) + (if forward then [n] else [])
    {
      if n.id in processed {
        return false;
      }
      forward := IsSafetyAnswer(n);
      if forward {
        forwarded := forwarded + [n];
      }
      processed := processed + {n.id};
    }

    /** The polling fallback: every notification of the list, in order. */
    method Poll(ns: seq<Notification>) returns (passed: seq<Notification>)
      requires Valid()
      modifies this
      ensures Valid()
      ensures passed == Forwarded(old(processed), ns)
      ensures processed == old(processed) + IdsOf(ns)
      ensures forwarded == old(forwarded) + passed
    {
      passed := [];
      for i := 0 to |ns|
        invariant Valid()
        invariant processed == old(processed) + IdsOf(ns[..i])
        invariant passed == Forwarded(old(processed), ns[..i])
        invariant forwarded == old(forwarded) + passed
      {
        var forward := Handle(ns[i]);
        assert ns[..i + 1][..i] == ns[..i];
        IdsOfStep(ns, i);
        if forward {
          passed := passed + [ns[i]];
        }
      }
      assert ns[..|ns|] == ns;
    }
  }

  /** Polling the same list twice forwards nothing the second time. */
  lemma {:induction false} NothingForwardedTwice(seen: set<string>, ns: seq<Notification>)
    requires IdsOf(ns) <= seen
    ensures Forwarded(seen, ns) == []
  {
    if ns != [] {
      var init := ns[..|ns| - 1];
      assert IdsOf(init) <= IdsOf(ns) by {
        forall x | x in IdsOf(init) ensures x in IdsOf(ns) {
          var j :| 0 <= j < |init| && init[j].id == x;
          assert ns[j] == init[j];
        }
      }
      NothingForwardedTwice(seen, init);
      assert ns[|ns| - 1].id in IdsOf(ns);
    }
  }
}
