/** The alert dialog that pops up for each broadcast earthquake or flood:
    the severity it shows, and the record of alert ids already shown, kept
    in memory and in browser storage as an object from id to the time it
    was shown. Loading keeps in memory the 500 newest ids shown in the last
    seven days; storage is rewritten only when more than 500 are recent, so
    it can still hold older entries. */
module DisasterToasts {
  import opened Common
  import LiveAlerts

  type Severity = LiveAlerts.Severity

  /** A broadcast alert as it arrives: all fields optional. `magnitude` is the
      magnitude of a quake or the river discharge of a flood. */
  datatype Incoming = Incoming(id: Option<string>, kind: Option<string>, magnitude: Option<real>, severity: Option<Severity>)

  const MaxEntries: nat := 500
  const MaxAgeMs: int := 7 * 24 * 60 * 60 * 1000

  // ---------------------------------------------------------------------
  // deriveSeverity

  /** `deriveSeverity`: a given severity wins; otherwise quakes and floods are rated on their
      number, a missing one read as 0; any other kind is low. */
  function DeriveSeverity(data: Incoming): (r: Severity)
    ensures data.severity.Some? ==> r == data.severity.value
    ensures data.severity.None? && data.kind != Some("earthquake") && data.kind != Some("flood") ==> r == LiveAlerts.Low
  {
    if data.severity.Some? then data.severity.value
    else if data.kind == Some("earthquake") then
      var m := data.magnitude.GetOr(0.0);
      if m >= 6.0 then LiveAlerts.High else if m >= 4.0 then LiveAlerts.Medium else LiveAlerts.Low
    else if data.kind == Some("flood") then
      var q := data.magnitude.GetOr(0.0);
      if q >= 5000.0 then LiveAlerts.High else if q >= 2000.0 then LiveAlerts.Medium else LiveAlerts.Low
    else LiveAlerts.Low
  }

  /** Without a given severity the dialog rates an alert exactly as the live feed does. */
  lemma DeriveAgreesWithFeed(data: Incoming)
    requires data.severity.None?
    ensures data.kind == Some("earthquake") ==> DeriveSeverity(data) == LiveAlerts.SeverityFromMagnitude(data.magnitude)
    ensures data.kind == Some("flood") ==> DeriveSeverity(data) == LiveAlerts.SeverityFromDischarge(data.magnitude)
  {
  }

  // ---------------------------------------------------------------------
  // The stored record

  /** One entry of the stored object: an alert id and when it was shown. */
  datatype Entry = Entry(id: string, shownAt: int)

  function ShownAt(e: Entry): int { e.shownAt }
  function EntryId(e: Entry): string { e.id }

  /** What storage holds under the key: nothing, text that does not parse, or an object. */
  datatype Stored = Missing | Corrupt | Entries(entries: seq<Entry>)

  /** The keys of an object are distinct. */
  ghost predicate DistinctKeys(entries: seq<Entry>) {
    forall i, j :: 0 <= i < j < |entries| ==> EntryId(entries[i]) != EntryId(entries[j])
  }

  /** `obj[id] = now`: an existing key keeps its place with the new value; a new key goes last. */
  function SetEntry(entries: seq<Entry>, id: string, now: int): (r: seq<Entry>)
    ensures Entry(id, now) in r
    ensures |entries| <= |r| <= |entries| + 1
  {
    if entries == [] then [Entry(id, now)]
    else if entries[0].id == id then [Entry(id, now)] + entries[1..]
    else [entries[0]] + SetEntry(entries[1..], id, now)
  }

  /** The head's key is not among the keys of the tail. */
  lemma HeadKeyUnique(entries: seq<Entry>)
    requires entries != [] && DistinctKeys(entries)
    ensures forall e :: e in entries[1..] ==> e.id != entries[0].id
  {
    forall e | e in entries[1..]
      ensures e.id != entries[0].id
    {
      var k :| 0 <= k < |entries[1..]| && entries[1..][k] == e;
      assert entries[k + 1] == e;
    }
  }

  /** Setting a key gives it the new time and nothing else, and leaves every other entry as it was. */
  lemma {:induction false} SetEntryMembers(entries: seq<Entry>, id: string, now: int)
    requires DistinctKeys(entries)
    ensures forall e :: e in SetEntry(entries, id, now) && e.id == id ==> e.shownAt == now
    ensures forall e :: e in entries && e.id != id ==> e in SetEntry(entries, id, now)
    ensures forall e :: e in SetEntry(entries, id, now) && e.id != id ==> e in entries
  {
    if entries != [] {
      HeadKeyUnique(entries);
      if entries[0].id != id {
        SetEntryMembers(entries[1..], id, now);
        assert SetEntry(entries, id, now) == [entries[0]] + SetEntry(entries[1..], id, now);
        assert forall e :: e in entries ==> e == entries[0] || e in entries[1..];
      }
    }
  }

  /** Giving the first key a new time keeps the keys distinct. */
  lemma ReplaceHeadDistinct(entries: seq<Entry>, id: string, now: int)
    requires DistinctKeys(entries) && entries != [] && entries[0].id == id
    ensures DistinctKeys([Entry(id, now)] + entries[1..])
  {
    var r := [Entry(id, now)] + entries[1..];
    forall i, j | 0 <= i < j < |r|
      ensures EntryId(r[i]) != EntryId(r[j])
    {
      assert r[j] == entries[j];
      if i > 0 {
        assert r[i] == entries[i];
      } else {
        assert EntryId(entries[0]) != EntryId(entries[j]);
      }
    }
  }

  /** Setting a key keeps the keys distinct. */
  lemma {:induction false} SetEntryDistinct(entries: seq<Entry>, id: string, now: int)
    requires DistinctKeys(entries)
    ensures DistinctKeys(SetEntry(entries, id, now))
  {
    if entries != [] {
      var r := SetEntry(entries, id, now);
      if entries[0].id == id {
        ReplaceHeadDistinct(entries, id, now);
      } else {
        var rest := SetEntry(entries[1..], id, now);
        HeadKeyUnique(entries);
        SetEntryDistinct(entries[1..], id, now);
        SetEntryMembers(entries[1..], id, now);
        assert r == [entries[0]] + rest;
        forall i, j | 0 <= i < j < |r|
          ensures EntryId(r[i]) != EntryId(r[j])
        {
          assert r[j] == rest[j - 1] && r[j] in rest;
          if i > 0 {
            assert r[i] == rest[i - 1];
          }
        }
      }
    }
  }

  /** Newest first, then at most 500: what both loading and adding keep. */
  function KeepNewest(entries: seq<Entry>): (r: seq<Entry>)
    ensures |r| <= MaxEntries
    ensures |r| == if |entries| < MaxEntries then |entries| else MaxEntries
  {
    Take(SortDesc(entries, ShownAt), MaxEntries)
  }

  /** Trimming keeps distinct keys and drops nothing when there are at most 500. */
  lemma KeepNewestDistinct(entries: seq<Entry>)
    requires DistinctKeys(entries)
    ensures DistinctKeys(KeepNewest(entries))
    ensures |entries| <= MaxEntries ==> |KeepNewest(entries)| == |entries|
  {
    var sorted := SortDesc(entries, ShownAt);
    PermutationKeepsDistinct(entries, sorted, EntryId);
    var r := KeepNewest(entries);
    assert r == sorted[..|r|];
    forall i, j | 0 <= i < j < |r|
      ensures EntryId(r[i]) != EntryId(r[j])
    {
      assert r[i] == sorted[i] && r[j] == sorted[j];
    }
  }

  /** Trimming orders the entries newest first and keeps only entries it was given. */
  lemma KeepNewestSpec(entries: seq<Entry>)
    ensures SortedDesc(KeepNewest(entries), ShownAt)
    ensures forall e :: e in KeepNewest(entries) ==> e in entries
  {
    var sorted := SortDesc(entries, ShownAt);
    SortDescSorted(entries, ShownAt);
    TakeSortedDesc(sorted, MaxEntries, ShownAt);
    var r := KeepNewest(entries);
    forall e | e in r
      ensures e in entries
    {
      var k :| 0 <= k < |r| && r[k] == e;
      assert sorted[k] == e;
      assert e in multiset(sorted);
    }
  }

  /** Trimming drops no entry newer than one it keeps. */
  lemma KeepNewestDropsOlder(entries: seq<Entry>, dropped: Entry, kept: Entry)
    requires dropped in entries && dropped !in KeepNewest(entries)
    requires kept in KeepNewest(entries)
    ensures kept.shownAt >= dropped.shownAt
  {
    TakeNewestDropsOlder(entries, MaxEntries, ShownAt, dropped, kept);
  }

  /** An entry strictly newer than every other survives trimming, at the front. */
  lemma NewestFirst(entries: seq<Entry>, top: Entry)
    requires top in entries
    requires forall e :: e in entries && e != top ==> e.shownAt < top.shownAt
    ensures KeepNewest(entries) != [] && KeepNewest(entries)[0] == top
  {
    var sorted := SortDesc(entries, ShownAt);
    SortDescSorted(entries, ShownAt);
    assert top in multiset(entries);
    assert top in multiset(sorted);
    var k :| 0 <= k < |sorted| && sorted[k] == top;
    assert sorted[0] in multiset(sorted);
    assert sorted[0] in entries;
    assert ShownAt(sorted[0]) >= ShownAt(sorted[k]);
  }

  /** Entries shown less than seven days before `now`. */
  function Recent(entries: seq<Entry>, now: int): (r: seq<Entry>)
    ensures forall e :: e in r <==> e in entries && now - e.shownAt < MaxAgeMs
  {
    Filter(entries, RecentRule(now))
  }

  function RecentRule(now: int): Entry -> bool {
    (e: Entry) => now - e.shownAt < MaxAgeMs
  }

  /** The ids `loadPersisted` keeps in memory: the 500 newest recent ones. */
  function LoadedIds(entries: seq<Entry>, now: int): set<string> {
    set e | e in KeepNewest(Recent(entries, now)) :: e.id
  }

  /** Keeping the recent entries keeps the keys distinct. */
  lemma RecentDistinct(entries: seq<Entry>, now: int)
    requires DistinctKeys(entries)
    ensures DistinctKeys(Recent(entries, now))
  {
    FilterKeepsDistinct(entries, RecentRule(now), EntryId);
  }

  /** What loading keeps has distinct keys, and is all the recent entries when they are at most 500. */
  lemma LoadKeepsDistinct(entries: seq<Entry>, now: int)
    requires DistinctKeys(entries)
    ensures DistinctKeys(KeepNewest(Recent(entries, now)))
    ensures |Recent(entries, now)| <= MaxEntries ==> |KeepNewest(Recent(entries, now))| == |Recent(entries, now)|
  {
    RecentDistinct(entries, now);
    KeepNewestDistinct(Recent(entries, now));
  }

  /** In an object, different entries have different keys. */
  lemma KeyDetermines(entries: seq<Entry>, a: Entry, b: Entry)
    requires DistinctKeys(entries) && a in entries && b in entries && a != b
    ensures a.id != b.id
  {
    var i :| 0 <= i < |entries| && entries[i] == a;
    var j :| 0 <= j < |entries| && entries[j] == b;
    if i < j {
      assert EntryId(entries[i]) != EntryId(entries[j]);
    } else {
      assert EntryId(entries[j]) != EntryId(entries[i]);
    }
  }

  /** `persistAdd` on what storage holds: the id stamped with `now`, then trimmed. Unparsable
      text makes it give up. */
  function PersistAdd(stored: Stored, id: string, now: int): (r: Stored)
    ensures stored.Corrupt? ==> r == Corrupt
    ensures stored.Missing? ==> r == Entries([Entry(id, now)])
    ensures stored.Entries? ==> r == Entries(KeepNewest(SetEntry(stored.entries, id, now)))
  {
    match stored
    case Corrupt => Corrupt
    case Missing => Entries(KeepNewest(SetEntry([], id, now)))
    case Entries(entries) => Entries(KeepNewest(SetEntry(entries, id, now)))
  }

  /** After adding, the record holds at most 500 distinct ids; when every earlier entry is older
      than `now`, the new id is the first entry. */
  lemma PersistAddSpec(entries: seq<Entry>, id: string, now: int)
    requires DistinctKeys(entries)
    ensures var r := PersistAdd(Entries(entries), id, now).entries;
      |r| <= MaxEntries && DistinctKeys(r)
    ensures (forall e :: e in entries && e.id != id ==> e.shownAt < now) ==>
      PersistAdd(Entries(entries), id, now).entries[0] == Entry(id, now)
  {
    var updated := SetEntry(entries, id, now);
    SetEntryDistinct(entries, id, now);
    SetEntryMembers(entries, id, now);
    KeepNewestDistinct(updated);
    if forall e :: e in entries && e.id != id ==> e.shownAt < now {
      NewestFirst(updated, Entry(id, now));
    }
  }

  // ---------------------------------------------------------------------
  // The component

  class Toasts {
    /** The ids already shown in this page. */
    var seen: set<string>
    /** What browser storage holds under the record's key. */
    var stored: Stored
    var open: bool
    var current: Option<Incoming>

    /** Storage, when it holds an object, has distinct keys. */
    ghost predicate Valid()
      reads this
    {
      stored.Entries? ==> DistinctKeys(stored.entries)
    }

    constructor (storage: Stored)
      requires storage.Entries? ==> DistinctKeys(storage.entries)
      ensures seen == {} && stored == storage && !open && current == None && Valid()
    {
      seen := {};
      stored := storage;
      open := false;
      current := None;
    }

    /** `loadPersisted`: the seen ids become the 500 newest entries shown less than seven days ago;
        storage is rewritten with them only when that cut dropped some of the recent ones. */
    method LoadPersisted(now: int)
      requires Valid()
      modifies this
      ensures Valid() && open == old(open) && current == old(current)
      ensures !old(stored).Entries? ==> seen == old(seen) && stored == old(stored)
      ensures old(stored).Entries? ==> seen == LoadedIds(old(stored).entries, now)
      ensures old(stored).Entries? && |Recent(old(stored).entries, now)| <= MaxEntries ==> stored == old(stored)
      ensures old(stored).Entries? && |Recent(old(stored).entries, now)| > MaxEntries ==>
        stored == Entries(KeepNewest(Recent(old(stored).entries, now)))
    {
      if !stored.Entries? {
        return;
      }
      var recent := Recent(stored.entries, now);
      var trimmed := KeepNewest(recent);
      LoadKeepsDistinct(stored.entries, now);
      seen := LoadedIds(stored.entries, now);
      if |trimmed| != |recent| {
        stored := Entries(trimmed);
      }
    }

    /** The handler for one broadcast: its id is the alert's id, else the message's id, else a
        random one. A seen id is ignored; a new one is recorded in memory and in storage, and opens
        the dialog only when the alert names its kind. */
    method Receive(data: Incoming, messageId: Option<string>, randomId: string, now: int)
      requires Valid()
      modifies this
      ensures Valid()
      ensures var id := OrElse(data.id, OrElse(messageId, randomId));
        (id in old(seen) ==> seen == old(seen) && stored == old(stored) && open == old(open) && current == old(current)) &&
        (id !in old(seen) ==> seen == old(seen) + {id} && stored == PersistAdd(old(stored), id, now)) &&
        (id !in old(seen) && Truthy(data.kind) ==>
          open && current == Some(data.(severity := Some(DeriveSeverity(data))))) &&
        (id !in old(seen) && !Truthy(data.kind) ==> open == old(open) && current == old(current))
    {
      var id := OrElse(data.id, OrElse(messageId, randomId));
      if id in seen {
        return;
      }
      seen := seen + {id};
      if stored.Entries? {
        PersistAddSpec(stored.entries, id, now);
      }
      stored := PersistAdd(stored, id, now);
      if !Truthy(data.kind) {
        return;
      }
      current := Some(data.(severity := Some(DeriveSeverity(data))));
      open := true;
    }
  }

  /** Loading forgets an expired id in memory, yet when at most 500 recent entries remain,
      storage is not rewritten and still holds it. */
  lemma ExpiredForgottenButStored(entries: seq<Entry>, now: int, expired: Entry)
    requires DistinctKeys(entries)
    requires expired in entries && now - expired.shownAt >= MaxAgeMs
    ensures expired.id !in LoadedIds(entries, now)
  {
    var recent := Recent(entries, now);
    KeepNewestSpec(recent);
    forall e | e in KeepNewest(recent)
      ensures e.id != expired.id
    {
      KeyDetermines(entries, e, expired);
    }
  }
}
