/** The live alerts feed: earthquakes from the realtime channel and the
    earthquake catalogue, flood risk from river discharge at fixed sites,
    merged into one newest-first list of at most 200 events, each id taken
    once; plus the severity rules, the "time ago" label and the summary
    counts. Magnitudes and discharges are reals; times are integer
    milliseconds. */
module LiveAlerts {
  import opened Common

  datatype Severity = High | Medium | Low

  datatype EventType = Earthquake | Flood | Cyclone

  datatype Event = Event(id: string, kind: EventType, magnitude: Option<real>, time: int, severity: Severity)

  const MaxEvents: nat := 200

  function Time(e: Event): int { e.time }

  function EventId(e: Event): string { e.id }

  /** Rank of a severity, low to high. */
  function Rank(s: Severity): nat {
    match s
    case Low => 0
    case Medium => 1
    case High => 2
  }

  // ---------------------------------------------------------------------
  // Severities

  /** `severityFromMagnitude`: none is low, 6 and above high, 4 and above medium, else low. */
  function SeverityFromMagnitude(mag: Option<real>): (r: Severity)
    ensures mag.None? ==> r == Low
    ensures mag.Some? ==> (r == High <==> mag.value >= 6.0)
    ensures mag.Some? ==> (r == Medium <==> 4.0 <= mag.value < 6.0)
  {
    if mag.None? then Low
    else if mag.value >= 6.0 then High
    else if mag.value >= 4.0 then Medium
    else Low
  }

  /** `severityFromDischarge`: none is low, 5000 and above high, 2000 and above medium, else low. */
  function SeverityFromDischarge(q: Option<real>): (r: Severity)
    ensures q.None? ==> r == Low
    ensures q.Some? ==> (r == High <==> q.value >= 5000.0)
    ensures q.Some? ==> (r == Medium <==> 2000.0 <= q.value < 5000.0)
  {
    if q.None? then Low
    else if q.value >= 5000.0 then High
    else if q.value >= 2000.0 then Medium
    else Low
  }

  /** A stronger quake or a larger discharge is never rated lower. */
  lemma SeverityMonotone(a: real, b: real)
    requires a <= b
    ensures Rank(SeverityFromMagnitude(Some(a))) <= Rank(SeverityFromMagnitude(Some(b)))
    ensures Rank(SeverityFromDischarge(Some(a))) <= Rank(SeverityFromDischarge(Some(b)))
  {
  }

  // ---------------------------------------------------------------------
  // formatTimeAgo

  datatype Duration = Duration(days: nat, hours: nat, minutes: nat, seconds: nat)

  /** Whole days, then the hours, minutes and seconds left over. */
  function Breakdown(totalSeconds: nat): Duration {
    Duration(totalSeconds / 86400, (totalSeconds % 86400) / 3600, (totalSeconds % 3600) / 60, totalSeconds % 60)
  }

  /** The breakdown is exact and each part is below its unit. */
  lemma BreakdownExact(totalSeconds: nat)
    ensures var d := Breakdown(totalSeconds);
      d.days * 86400 + d.hours * 3600 + d.minutes * 60 + d.seconds == totalSeconds &&
      d.hours < 24 && d.minutes < 60 && d.seconds < 60
  {
    var t := totalSeconds;
    var rest := t % 86400;
    var hours := rest / 3600;
    var under := rest % 3600;
    assert t == (t / 86400) * 86400 + rest;
    assert rest == hours * 3600 + under && 0 <= under < 3600;
    HourRemainder(t, (t / 86400) * 24 + hours, under);
    assert t % 3600 == under;
    assert under == (under / 60) * 60 + t % 60 by {
      MinuteRemainder(t, ((t / 86400) * 24 + hours) * 60 + under / 60, under % 60);
    }
  }

  /** Division by an hour with remainder has one answer. */
  lemma HourRemainder(a: int, q: int, r: int)
    requires 0 <= r < 3600 && a == q * 3600 + r
    ensures a % 3600 == r
  {
  }

  /** Division by a minute with remainder has one answer. */
  lemma MinuteRemainder(a: int, q: int, r: int)
    requires 0 <= r < 60 && a == q * 60 + r
    ensures a % 60 == r
  {
  }

  /** The non-zero parts, largest first, with seconds only when no larger part is shown. */
  function TimeAgoParts(d: Duration): seq<string> {
    var big := (if d.days != 0 then [NatToString(d.days) + "d"] else [])
      + (if d.hours != 0 then [NatToString(d.hours) + "h"] else [])
      + (if d.minutes != 0 then [NatToString(d.minutes) + "m"] else []);
    if d.seconds != 0 && big == [] then [NatToString(d.seconds) + "s"] else big
  }

  /** `formatTimeAgo`. */
  method FormatTimeAgo(now: int, time: int) returns (r: string)
    ensures now - time < 1000 ==> r == "just now"
    ensures now - time >= 1000 ==> r == Join(TimeAgoParts(Breakdown((now - time) / 1000)), " ") + " ago"
  {
    var diffMs := now - time;
    if diffMs < 1000 {
      return "just now";
    }
    var totalSeconds: nat := diffMs / 1000;
    var days := totalSeconds / 86400;
    var hours := (totalSeconds % 86400) / 3600;
    var minutes := (totalSeconds % 3600) / 60;
    var seconds := totalSeconds % 60;
    var parts: seq<string> := [];
    if days != 0 { parts := parts + [NatToString(days) + "d"]; }
    if hours != 0 { parts := parts + [NatToString(hours) + "h"]; }
    if minutes != 0 { parts := parts + [NatToString(minutes) + "m"]; }
    if seconds != 0 && |parts| == 0 { parts := parts + [NatToString(seconds) + "s"]; }
    assert parts == TimeAgoParts(Duration(days, hours, minutes, seconds));
    r := Join(parts, " ") + " ago";
  }

  /** Under a minute the breakdown is the seconds alone. */
  lemma UnderMinute(t: nat)
    requires t < 60
    ensures Breakdown(t) == Duration(0, 0, 0, t)
  {
  }

  /** From a minute on, some part above seconds is non-zero. */
  lemma MinuteOrMore(t: nat)
    requires t >= 60
    ensures var d := Breakdown(t); d.days != 0 || d.hours != 0 || d.minutes != 0
  {
    BreakdownExact(t);
  }

  /** A number followed by a unit letter ends in that letter. */
  lemma EndsWithUnit(n: nat, unit: char)
    ensures var p := NatToString(n) + [unit]; |p| > 0 && p[|p| - 1] == unit
  {
  }

  /** With some part above seconds shown, the label is not empty and shows no seconds. */
  lemma PartsWithoutSeconds(d: Duration)
    requires d.days != 0 || d.hours != 0 || d.minutes != 0
    ensures TimeAgoParts(d) != []
    ensures forall p :: p in TimeAgoParts(d) ==> p[|p| - 1] != 's'
  {
    EndsWithUnit(d.days, 'd');
    EndsWithUnit(d.hours, 'h');
    EndsWithUnit(d.minutes, 'm');
  }

  /** Past one second the label always names some part; under a minute it is the seconds alone;
      from a minute on, seconds never appear. */
  lemma TimeAgoShape(totalSeconds: nat)
    ensures totalSeconds >= 1 ==> TimeAgoParts(Breakdown(totalSeconds)) != []
    ensures 1 <= totalSeconds < 60 ==> TimeAgoParts(Breakdown(totalSeconds)) == [NatToString(totalSeconds) + "s"]
    ensures totalSeconds >= 60 ==> forall p :: p in TimeAgoParts(Breakdown(totalSeconds)) ==> p[|p| - 1] != 's'
  {
    if totalSeconds < 60 {
      UnderMinute(totalSeconds);
    } else {
      MinuteOrMore(totalSeconds);
      PartsWithoutSeconds(Breakdown(totalSeconds));
    }
  }

  // ---------------------------------------------------------------------
  // The feed

  /** `[...incoming, ...prev].sort((a, b) => b.time - a.time).slice(0, 200)`. */
  function InsertEvents(incoming: seq<Event>, prev: seq<Event>): (r: seq<Event>)
    ensures |r| <= MaxEvents
    ensures |r| == if |incoming| + |prev| < MaxEvents then |incoming| + |prev| else MaxEvents
  {
    Take(SortDesc(incoming + prev, Time), MaxEvents)
  }

  /** The result of an insert is newest first, and holds only events that were offered or held. */
  lemma InsertEventsSpec(incoming: seq<Event>, prev: seq<Event>)
    ensures SortedDesc(InsertEvents(incoming, prev), Time)
    ensures multiset(InsertEvents(incoming, prev)) <= multiset(incoming + prev)
    ensures |incoming| + |prev| <= MaxEvents ==> multiset(InsertEvents(incoming, prev)) == multiset(incoming + prev)
  {
    var sorted := SortDesc(incoming + prev, Time);
    SortDescSorted(incoming + prev, Time);
    TakeSortedDesc(sorted, MaxEvents, Time);
    TakeSubset(sorted, MaxEvents);
  }

  /** When the list is full, a newcomer older than everything held is the one dropped. */
  lemma KeepsNewest(incoming: seq<Event>, prev: seq<Event>, e: Event, kept: Event)
    requires e in incoming + prev && kept in InsertEvents(incoming, prev)
    requires e !in InsertEvents(incoming, prev)
    ensures kept.time >= e.time
  {
    var all := incoming + prev;
    var sorted := SortDesc(all, Time);
    SortDescSorted(all, Time);
    assert e in multiset(all);
    assert e in multiset(sorted);
    var j :| 0 <= j < |sorted| && sorted[j] == e;
    var i :| 0 <= i < |InsertEvents(incoming, prev)| && InsertEvents(incoming, prev)[i] == kept;
    assert InsertEvents(incoming, prev) == sorted[..|InsertEvents(incoming, prev)|];
    assert sorted[i] == kept;
    assert j >= |InsertEvents(incoming, prev)|;
  }

  /** Answer of the river-discharge service for one site: the daily times and discharges. */
  datatype Daily = Daily(times: seq<int>, discharge: seq<Option<real>>)

  datatype Site = Site(key: string)

  /** The flood event id: "flood-{key}-{t}". */
  function FloodId(key: string, t: int): string {
    "flood-" + key + "-" + IntToString(t)
  }

  /** One site's readings of different days get different ids. */
  lemma FloodIdInjective(key: string, t1: int, t2: int)
    requires FloodId(key, t1) == FloodId(key, t2)
    ensures t1 == t2
  {
    var p := "flood-" + key + "-";
    assert FloodId(key, t1)[|p|..] == IntToString(t1);
    assert FloodId(key, t2)[|p|..] == IntToString(t2);
    IntToStringInjective(t1, t2);
  }

  /** The newest day's reading of a site, unless there is none. */
  function LatestSample(answer: Option<Daily>): (r: Option<(int, Option<real>)>)
    ensures r.None? <==> answer.None? || answer.value.times == []
    ensures r.Some? ==> r.value.0 == answer.value.times[|answer.value.times| - 1]
    ensures r.Some? && |answer.value.discharge| < |answer.value.times| ==> r.value.1 == None
    ensures r.Some? && |answer.value.discharge| >= |answer.value.times| ==>
      r.value.1 == answer.value.discharge[|answer.value.times| - 1]
  {
    if answer.None? || |answer.value.times| == 0 then None
    else
      var idx := |answer.value.times| - 1;
      Some((answer.value.times[idx], if idx < |answer.value.discharge| then answer.value.discharge[idx] else None))
  }

  /** How one site's request ended: the fetch or the JSON parse threw, the status was not OK, or a
      body was read, whose daily series may be missing. */
  datatype FloodAnswer = Threw | NotOk | Body(daily: Option<Daily>)

  predicate AnyThrew(answers: seq<FloodAnswer>) {
    exists i :: 0 <= i < |answers| && answers[i].Threw?
  }

  lemma AnyThrewStep(answers: seq<FloodAnswer>, i: nat)
    requires i < |answers|
    ensures AnyThrew(answers[..i + 1]) == (AnyThrew(answers[..i]) || answers[i].Threw?)
  {
    assert answers[..i + 1][i] == answers[i];
    assert forall k :: 0 <= k < i ==> answers[..i + 1][k] == answers[..i][k];
  }

  /** The event a site's answer offers before the seen check: its newest reading, when that is of
      medium or high severity. */
  function FloodCandidate(site: Site, answer: FloodAnswer): (c: Option<Event>)
    ensures c.Some? ==> c.value.kind == Flood && c.value.severity != Low
    ensures c.Some? ==>
      answer.Body? && LatestSample(answer.daily).Some? &&
      c.value.time == LatestSample(answer.daily).value.0 && c.value.id == FloodId(site.key, c.value.time)
  {
    if !answer.Body? then None
    else
      var sample := LatestSample(answer.daily);
      if sample.None? then None
      else
        var (t, q) := sample.value;
        var sev := SeverityFromDischarge(q);
        if sev == Low then None else Some(Event(FloodId(site.key, t), Flood, q, t, sev))
  }

  /** The events a flood poll produces, sites in order: each candidate whose id is neither seen
      before nor taken by an earlier site. */
  function FloodEvents(sites: seq<Site>, answers: seq<FloodAnswer>, seen: set<string>): seq<Event>
    requires |answers| == |sites|
    decreases |sites|
  {
    if sites == [] then []
    else
      var c := FloodCandidate(sites[0], answers[0]);
      if c.Some? && c.value.id !in seen then [c.value] + FloodEvents(sites[1..], answers[1..], seen + {c.value.id})
      else FloodEvents(sites[1..], answers[1..], seen)
  }

  /** The poll of the sites from i on: site i's candidate, then the rest. */
  lemma FloodEventsStep(sites: seq<Site>, answers: seq<FloodAnswer>, i: nat, seen: set<string>)
    requires |answers| == |sites| && i < |sites|
    ensures var c := FloodCandidate(sites[i], answers[i]);
      FloodEvents(sites[i..], answers[i..], seen) ==
        if c.Some? && c.value.id !in seen then [c.value] + FloodEvents(sites[i + 1..], answers[i + 1..], seen + {c.value.id})
        else FloodEvents(sites[i + 1..], answers[i + 1..], seen)
  {
    assert sites[i..][1..] == sites[i + 1..] && answers[i..][1..] == answers[i + 1..];
  }

  function EventIds(s: seq<Event>): set<string> {
    set e | e in s :: e.id
  }

  lemma EventIdsAppend(s: seq<Event>, e: Event)
    ensures EventIds(s + [e]) == EventIds(s) + {e.id}
  {
    assert e in s + [e];
    forall x | x in EventIds(s + [e])
      ensures x in EventIds(s) + {e.id}
    {
      var y :| y in s + [e] && y.id == x;
      if y != e {
        assert y in s;
      }
    }
    forall x | x in EventIds(s)
      ensures x in EventIds(s + [e])
    {
      var y :| y in s && y.id == x;
      assert y in s + [e];
    }
  }

  /** The produced events are floods of medium or high severity, with fresh and distinct ids. */
  lemma {:induction false} FloodEventsSpec(sites: seq<Site>, answers: seq<FloodAnswer>, seen: set<string>)
    requires |answers| == |sites|
    ensures forall e :: e in FloodEvents(sites, answers, seen) ==> e.kind == Flood && e.severity != Low && e.id !in seen
    ensures IdsDistinct(FloodEvents(sites, answers, seen))
    decreases |sites|
  {
    if sites != [] {
      var c := FloodCandidate(sites[0], answers[0]);
      if c.Some? && c.value.id !in seen {
        var rest := FloodEvents(sites[1..], answers[1..], seen + {c.value.id});
        FloodEventsSpec(sites[1..], answers[1..], seen + {c.value.id});
        var all := [c.value] + rest;
        forall i, j | 0 <= i < j < |all|
          ensures EventId(all[i]) != EventId(all[j])
        {
          assert all[j] == rest[j - 1] && all[j] in rest;
          if i > 0 {
            assert all[i] == rest[i - 1];
          }
        }
      } else {
        FloodEventsSpec(sites[1..], answers[1..], seen);
      }
    }
  }

  /** Once the ids of a poll are recorded, the same answers produce nothing again. */
  lemma {:induction false} FloodEventsOnce(sites: seq<Site>, answers: seq<FloodAnswer>, seen: set<string>, later: set<string>)
    requires |answers| == |sites|
    requires seen <= later && EventIds(FloodEvents(sites, answers, seen)) <= later
    ensures FloodEvents(sites, answers, later) == []
    decreases |sites|
  {
    if sites != [] {
      var c := FloodCandidate(sites[0], answers[0]);
      if c.Some? && c.value.id !in seen {
        var rest := FloodEvents(sites[1..], answers[1..], seen + {c.value.id});
        assert c.value in [c.value] + rest;
        assert EventIds(rest) <= EventIds([c.value] + rest) by {
          forall x | x in EventIds(rest) ensures x in EventIds([c.value] + rest) {
            var e :| e in rest && e.id == x;
            assert e in [c.value] + rest;
          }
        }
        FloodEventsOnce(sites[1..], answers[1..], seen + {c.value.id}, later);
      } else {
        FloodEventsOnce(sites[1..], answers[1..], seen, later);
      }
    }
  }

  /** The live feed: the events shown and the ids already taken. */
  class Feed {
    var events: seq<Event>
    var seenIds: set<string>

    /** At most 200 events, newest first, each one's id recorded as seen. */
    ghost predicate Valid()
      reads this
    {
      |events| <= MaxEvents && SortedDesc(events, Time) && forall e :: e in events ==> e.id in seenIds
    }

    /** No id is shown twice. */
    ghost predicate DistinctIds()
      reads this
    {
      IdsDistinct(events)
    }

    constructor ()
      ensures events == [] && seenIds == {} && Valid() && DistinctIds()
    {
      events := [];
      seenIds := {};
    }

    /** Inserts events whose ids were just recorded. */
    method Insert(incoming: seq<Event>)
      requires Valid()
      requires forall e :: e in incoming ==> e.id in seenIds
      modifies this
      ensures Valid()
      ensures events == InsertEvents(incoming, old(events)) && seenIds == old(seenIds)
      ensures (old(DistinctIds()) && IdsDistinct(incoming) && NoneShown(incoming, old(events))) ==> DistinctIds()
    {
      InsertEventsSpec(incoming, events);
      InsertKeepsSeen(incoming, events, seenIds);
      if DistinctIds() && IdsDistinct(incoming) && NoneShown(incoming, events) {
        InsertKeepsDistinct(incoming, events);
      }
      events := InsertEvents(incoming, events);
    }

    /** A message of the realtime earthquake channel: dropped when its id was seen, otherwise
        recorded and inserted. `id` is the payload id, else the message id, else a random one. */
    method ReceiveQuake(id: string, magnitude: Option<real>, time: Option<int>, now: int)
      returns (inserted: bool)
      requires Valid()
      modifies this
      ensures Valid()
      ensures inserted <==> id !in old(seenIds)
      ensures !inserted ==> events == old(events) && seenIds == old(seenIds)
      ensures inserted ==> (seenIds == old(seenIds) + {id} &&
                            events == InsertEvents([QuakeEvent(id, magnitude, time, now)], old(events)))
      ensures old(DistinctIds()) ==> DistinctIds()
    {
      if id in seenIds {
        return false;
      }
      seenIds := seenIds + {id};
      Insert([QuakeEvent(id, magnitude, time, now)]);
      inserted := true;
    }

    /** One feature of the catalogue poll: skipped without an id or when seen. */
    method ReceiveFeature(id: Option<string>, magnitude: Option<real>, time: Option<int>, now: int)
      returns (inserted: bool)
      requires Valid()
      modifies this
      ensures Valid()
      ensures inserted <==> Truthy(id) && id.value !in old(seenIds)
      ensures !inserted ==> events == old(events) && seenIds == old(seenIds)
      ensures inserted ==> (seenIds == old(seenIds) + {id.value} &&
                            events == InsertEvents([QuakeEvent(id.value, magnitude, time, now)], old(events)))
      ensures old(DistinctIds()) ==> DistinctIds()
    {
      if !Truthy(id) {
        return false;
      }
      inserted := ReceiveQuake(id.value, magnitude, time, now);
    }

    /** The catalogue poll: every feature in turn. */
    method PollCatalogue(features: seq<Feature>, now: int)
      requires Valid()
      modifies this
      ensures Valid()
      ensures seenIds == old(seenIds) + FeatureIds(features)
      ensures FeedState(events, seenIds) == CatalogueFold(features, now, FeedState(old(events), old(seenIds)))
      ensures old(DistinctIds()) ==> DistinctIds()
    {
      for i := 0 to |features|
        invariant Valid()
        invariant seenIds == old(seenIds) + FeatureIds(features[..i])
        invariant CatalogueFold(features[i..], now, FeedState(events, seenIds)) ==
          CatalogueFold(features, now, FeedState(old(events), old(seenIds)))
        invariant old(DistinctIds()) ==> DistinctIds()
      {
        var f := features[i];
        CatalogueFoldStep(features, i, now, FeedState(events, seenIds));
        var _ := ReceiveFeature(f.id, f.magnitude, f.time, now);
        FeatureIdsStep(features, i);
      }
      assert features[..|features|] == features;
      assert features[|features|..] == [];
    }

    /** The test alert: its id is recorded and the event inserted without a seen check. */
    method TestAlert(id: string, magnitude: real, now: int)
      requires Valid()
      modifies this
      ensures Valid()
      ensures seenIds == old(seenIds) + {id}
      ensures events == InsertEvents([TestEvent(id, magnitude, now)], old(events))
      ensures old(DistinctIds()) && id !in old(seenIds) ==> DistinctIds()
    {
      seenIds := seenIds + {id};
      Insert([TestEvent(id, magnitude, now)]);
    }

    /** One flood poll. Every site's request runs to its end: a site whose newest reading is of
        medium or high severity and whose id is not yet seen records the id and offers its event.
        The offered events are inserted together, unless one site's request threw, which rejects
        the whole batch after the other sites have recorded their ids. */
    method PollFloods(sites: seq<Site>, answers: seq<FloodAnswer>)
      returns (incoming: seq<Event>)
      requires Valid()
      requires |answers| == |sites|
      modifies this
      ensures Valid()
      ensures incoming == FloodEvents(sites, answers, old(seenIds))
      ensures seenIds == old(seenIds) + EventIds(incoming)
      ensures forall e :: e in incoming ==> e.kind == Flood && e.severity != Low
      ensures forall e :: e in incoming ==> e.id !in old(seenIds) && e.id in seenIds
      ensures forall i, j :: 0 <= i < j < |incoming| ==> incoming[i].id != incoming[j].id
      ensures AnyThrew(answers) || incoming == [] ==> events == old(events)
      ensures !AnyThrew(answers) && incoming != [] ==> events == InsertEvents(incoming, old(events))
      ensures old(DistinctIds()) ==> DistinctIds()
    {
      FloodEventsSpec(sites, answers, seenIds);
      var seen, threw;
      incoming, seen, threw := CollectFloods(sites, answers, seenIds);
      seenIds := seen;
      assert forall e :: e in incoming ==> e.id in EventIds(incoming);
      if !threw && incoming != [] {
        Insert(incoming);
      }
    }
  }

  /** The per-site requests of a flood poll, sites in order, recording each offered id in `seen`. */
  method CollectFloods(sites: seq<Site>, answers: seq<FloodAnswer>, seen0: set<string>)
    returns (incoming: seq<Event>, seen: set<string>, threw: bool)
    requires |answers| == |sites|
    ensures incoming == FloodEvents(sites, answers, seen0)
    ensures seen == seen0 + EventIds(incoming)
    ensures threw == AnyThrew(answers)
  {
    incoming, seen, threw := [], seen0, false;
    for i := 0 to |sites|
      invariant incoming + FloodEvents(sites[i..], answers[i..], seen) == FloodEvents(sites, answers, seen0)
      invariant seen == seen0 + EventIds(incoming)
      invariant threw == AnyThrew(answers[..i])
    {
      FloodEventsStep(sites, answers, i, seen);
      AnyThrewStep(answers, i);
      if answers[i].Threw? {
        threw := true;
      }
      var c := FloodCandidate(sites[i], answers[i]);
      if c.Some? && c.value.id !in seen {
        seen := seen + {c.value.id};
        ghost var rest := FloodEvents(sites[i + 1..], answers[i + 1..], seen);
        AppendAssoc(incoming, [c.value], rest);
        EventIdsAppend(incoming, c.value);
        incoming := incoming + [c.value];
        assert incoming + rest == FloodEvents(sites, answers, seen0);
      }
    }
    assert sites[|sites|..] == [];
    assert answers[..|sites|] == answers;
  }

  /** The event a realtime message or a catalogue feature makes: the severity of its magnitude, and
      the given time unless it is missing or zero, in which case the time of arrival. */
  function QuakeEvent(id: string, magnitude: Option<real>, time: Option<int>, now: int): (e: Event)
    ensures e.id == id && e.kind == Earthquake && e.severity == SeverityFromMagnitude(magnitude)
    ensures e.time == (if time.Some? && time.value != 0 then time.value else now)
  {
    Event(id, Earthquake, magnitude,
          if time.Some? && time.value != 0 then time.value else now, SeverityFromMagnitude(magnitude))
  }

  /** The simulated earthquake of the test button, stamped with the time it is made. */
  function TestEvent(id: string, magnitude: real, now: int): (e: Event)
    ensures e.id == id && e.time == now && e.severity == SeverityFromMagnitude(Some(magnitude))
  {
    Event(id, Earthquake, Some(magnitude), now, SeverityFromMagnitude(Some(magnitude)))
  }

  datatype Feature = Feature(id: Option<string>, magnitude: Option<real>, time: Option<int>)

  /** The shown events and the recorded ids. */
  datatype FeedState = FeedState(events: seq<Event>, seen: set<string>)

  /** One feature of a catalogue poll: one with a non-empty id not yet seen records the id and
      inserts its event; any other leaves the feed as it is. */
  function CatalogueStep(f: Feature, now: int, st: FeedState): FeedState {
    if Truthy(f.id) && f.id.value !in st.seen then
      FeedState(InsertEvents([QuakeEvent(f.id.value, f.magnitude, f.time, now)], st.events), st.seen + {f.id.value})
    else st
  }

  /** A catalogue poll: the features in order, each applied to the feed the earlier ones left. */
  function CatalogueFold(features: seq<Feature>, now: int, st: FeedState): FeedState
    decreases |features|
  {
    if features == [] then st else CatalogueFold(features[1..], now, CatalogueStep(features[0], now, st))
  }

  lemma CatalogueFoldStep(features: seq<Feature>, i: nat, now: int, st: FeedState)
    requires i < |features|
    ensures CatalogueFold(features[i..], now, st) == CatalogueFold(features[i + 1..], now, CatalogueStep(features[i], now, st))
  {
    assert features[i..][1..] == features[i + 1..];
  }

  /** The ids a catalogue poll records: the non-empty ones. */
  function FeatureIds(fs: seq<Feature>): set<string> {
    set i | 0 <= i < |fs| && Truthy(fs[i].id) :: fs[i].id.value
  }

  lemma FeatureIdsStep(fs: seq<Feature>, i: nat)
    requires i < |fs|
    ensures FeatureIds(fs[..i + 1]) == FeatureIds(fs[..i]) + (if Truthy(fs[i].id) then {fs[i].id.value} else {})
  {
    assert forall j :: 0 <= j < i ==> fs[..i + 1][j] == fs[..i][j];
    assert fs[..i + 1][i] == fs[i];
  }

  /** No two events of the list share an id. */
  ghost predicate IdsDistinct(s: seq<Event>) {
    forall i, j :: 0 <= i < j < |s| ==> EventId(s[i]) != EventId(s[j])
  }

  /** No incoming event has the id of one already held. */
  ghost predicate NoneShown(incoming: seq<Event>, held: seq<Event>) {
    forall e, x :: e in incoming && x in held ==> e.id != x.id
  }

  /** Every event an insert keeps carries a recorded id. */
  lemma InsertKeepsSeen(incoming: seq<Event>, prev: seq<Event>, seen: set<string>)
    requires forall e :: e in incoming + prev ==> e.id in seen
    ensures forall e :: e in InsertEvents(incoming, prev) ==> e.id in seen
  {
    InsertEventsSpec(incoming, prev);
    forall e | e in InsertEvents(incoming, prev)
      ensures e.id in seen
    {
      assert e in multiset(InsertEvents(incoming, prev));
      assert e in multiset(incoming + prev);
    }
  }

  /** Inserting events with new, distinct ids keeps the ids distinct. */
  lemma InsertKeepsDistinct(incoming: seq<Event>, prev: seq<Event>)
    requires IdsDistinct(incoming) && IdsDistinct(prev) && NoneShown(incoming, prev)
    ensures IdsDistinct(InsertEvents(incoming, prev))
  {
    var all := incoming + prev;
    forall i, j | 0 <= i < j < |all|
      ensures EventId(all[i]) != EventId(all[j])
    {
      if i < |incoming| && j >= |incoming| {
        assert all[j] == prev[j - |incoming|];
        assert all[i] in incoming && all[j] in prev;
      } else if j < |incoming| {
        assert all[i] == incoming[i] && all[j] == incoming[j];
      } else {
        assert all[i] == prev[i - |incoming|] && all[j] == prev[j - |incoming|];
      }
    }
    var sorted := SortDesc(all, Time);
    PermutationKeepsDistinct(all, sorted, EventId);
    var r := InsertEvents(incoming, prev);
    assert r == sorted[..|r|];
    forall i, j | 0 <= i < j < |r|
      ensures EventId(r[i]) != EventId(r[j])
    {
      assert r[i] == sorted[i] && r[j] == sorted[j];
    }
  }

  // ---------------------------------------------------------------------
  // Summary

  predicate IsQuake(e: Event) { e.kind == Earthquake }
  predicate IsFlood(e: Event) { e.kind == Flood }

  datatype Counts = Counts(high: nat, medium: nat, low: nat)

  function CountSeverity(s: seq<Event>, sev: Severity): nat {
    Count(s, (e: Event) => e.severity == sev)
  }

  /** The 10 newest of a kind. */
  function LastTen(events: seq<Event>, p: Event -> bool): (r: seq<Event>)
    ensures |r| <= 10
    ensures |r| == if |Filter(events, p)| < 10 then |Filter(events, p)| else 10
    ensures forall e :: e in r ==> e in events && p(e)
  {
    TakeNewestSpec(Filter(events, p), 10, Time);
    Take(SortDesc(Filter(events, p), Time), 10)
  }

  /** The ten are newest first, and an event of the kind left out is no newer than any of them. */
  lemma LastTenNewest(events: seq<Event>, p: Event -> bool, dropped: Event, kept: Event)
    requires dropped in events && p(dropped) && dropped !in LastTen(events, p)
    requires kept in LastTen(events, p)
    ensures SortedDesc(LastTen(events, p), Time)
    ensures kept.time >= dropped.time
  {
    TakeNewestSpec(Filter(events, p), 10, Time);
    TakeNewestDropsOlder(Filter(events, p), 10, Time, dropped, kept);
  }

  /** The summary: severities over the 10 newest earthquakes plus the 10 newest floods. */
  function Summary(events: seq<Event>): (c: Counts)
    ensures c.high + c.medium + c.low == |LastTen(events, IsQuake)| + |LastTen(events, IsFlood)|
    ensures c.high + c.medium + c.low <= 20
    ensures c.high == CountSeverity(LastTen(events, IsQuake) + LastTen(events, IsFlood), High)
    ensures c.medium == CountSeverity(LastTen(events, IsQuake) + LastTen(events, IsFlood), Medium)
    ensures c.low == CountSeverity(LastTen(events, IsQuake) + LastTen(events, IsFlood), Low)
  {
    var quakes := LastTen(events, IsQuake);
    var floods := LastTen(events, IsFlood);
    SeveritiesPartition(quakes);
    SeveritiesPartition(floods);
    CountAppend(quakes, floods, (e: Event) => e.severity == High);
    CountAppend(quakes, floods, (e: Event) => e.severity == Medium);
    CountAppend(quakes, floods, (e: Event) => e.severity == Low);
    Counts(CountSeverity(quakes, High) + CountSeverity(floods, High),
           CountSeverity(quakes, Medium) + CountSeverity(floods, Medium),
           CountSeverity(quakes, Low) + CountSeverity(floods, Low))
  }

  /** Every event has exactly one of the three severities. */
  lemma {:induction false} SeveritiesPartition(s: seq<Event>)
    ensures CountSeverity(s, High) + CountSeverity(s, Medium) + CountSeverity(s, Low) == |s|
  {
    if s != [] {
      SeveritiesPartition(s[1..]);
    }
  }
}
