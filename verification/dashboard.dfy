/** The dashboard's family card: the list of family members built from the
    user's family links, the members added by hand, marking one safe, and the
    count of members who are safe. */
module Dashboard {
  import opened Common

  /** The linked user as the family-link query returns it; any field may be missing. */
  datatype Profile = Profile(id: Option<string>, name: Option<string>, phone: Option<string>)

  /** One family link with its joined member and the stored safety status. */
  datatype Link = Link(id: Option<string>, member: Option<Profile>, safetyStatus: Option<string>)

  /** A family member as the card shows it. `status` is "safe", "unknown", "in_danger" or
      whatever the link carries, `None` for `null`. */
  datatype Member = Member(id: Option<string>, name: string, phone: string, uniqueId: Option<string>, status: Option<string>)

  /** `l.member?.<field>`: missing when there is no member or the member lacks the field. */
  function MemberId(l: Link): Option<string> {
    if l.member.Some? then l.member.value.id else None
  }

  /** The card entry for one link: the member's id, else the link's own id (`??`, so an
      empty id is kept); "Unknown" for a missing name and "" for a missing phone. */
  function ToMember(l: Link): (m: Member)
    ensures MemberId(l).Some? ==> m.id == MemberId(l)
    ensures MemberId(l).None? ==> m.id == l.id
    ensures m.uniqueId == m.id && m.status == l.safetyStatus
    ensures m.name == "Unknown" <==> l.member.None? || l.member.value.name.None? || l.member.value.name == Some("Unknown")
  {
    var id := if MemberId(l).Some? then MemberId(l) else l.id;
    var name := if l.member.Some? && l.member.value.name.Some? then l.member.value.name.value else "Unknown";
    var phone := if l.member.Some? && l.member.value.phone.Some? then l.member.value.phone.value else "";
    Member(id, name, phone, id, l.safetyStatus)
  }

  // ---------------------------------------------------------------------
  // Keeping the first member of each id

  /** No two members share an id. */
  predicate DistinctIds(ms: seq<Member>) {
    forall i, j :: 0 <= i < j < |ms| ==> ms[i].id != ms[j].id
  }

  /** The members a dedup filter lets through, given the ids it has already seen: those with
      a truthy id not seen before, each first occurrence only. */
  function KeepFirst(ms: seq<Member>, seen: set<string>): seq<Member>
    decreases |ms|
  {
    if ms == [] then []
    else if !Truthy(ms[0].id) || ms[0].id.value in seen then KeepFirst(ms[1..], seen)
    else [ms[0]] + KeepFirst(ms[1..], seen + {ms[0].id.value})
  }

  /** What is kept comes from the input, has a truthy id not seen before, and no id twice. */
  lemma {:induction false} KeepFirstSound(ms: seq<Member>, seen: set<string>)
    ensures var r := KeepFirst(ms, seen);
      && (forall m :: m in r ==> m in ms && Truthy(m.id) && m.id.value !in seen)
      && DistinctIds(r)
      && |r| <= |ms|
  {
    if ms != [] {
      var m := ms[0];
      if !Truthy(m.id) || m.id.value in seen {
        KeepFirstSound(ms[1..], seen);
      } else {
        var rest := KeepFirst(ms[1..], seen + {m.id.value});
        KeepFirstSound(ms[1..], seen + {m.id.value});
        var r := [m] + rest;
        assert KeepFirst(ms, seen) == r;
        forall i, j | 0 <= i < j < |r|
          ensures r[i].id != r[j].id
        {
          assert r[j] == rest[j - 1] && rest[j - 1] in rest;
          if i > 0 {
            assert r[i] == rest[i - 1];
          }
        }
      }
    }
  }

  /** Every truthy id of the input that was not already seen is kept. */
  lemma {:induction false} KeepFirstComplete(ms: seq<Member>, seen: set<string>, k: int)
    requires 0 <= k < |ms| && Truthy(ms[k].id) && ms[k].id.value !in seen
    ensures exists m :: m in KeepFirst(ms, seen) && m.id == ms[k].id
  {
    var m := ms[0];
    if k == 0 {
      assert m in KeepFirst(ms, seen);
    } else if !Truthy(m.id) || m.id.value in seen {
      KeepFirstComplete(ms[1..], seen, k - 1);
    } else if m.id == ms[k].id {
      assert m in KeepFirst(ms, seen);
    } else {
      KeepFirstComplete(ms[1..], seen + {m.id.value}, k - 1);
      var w :| w in KeepFirst(ms[1..], seen + {m.id.value}) && w.id == ms[k].id;
      assert w in KeepFirst(ms, seen);
    }
  }

  /** The member kept for an id is the first member of the input with that id. */
  lemma {:induction false} KeepFirstIsFirst(ms: seq<Member>, seen: set<string>, k: int)
    requires 0 <= k < |ms| && Truthy(ms[k].id) && ms[k].id.value !in seen
    requires forall j :: 0 <= j < k ==> ms[j].id != ms[k].id
    ensures ms[k] in KeepFirst(ms, seen)
  {
    var m := ms[0];
    if k != 0 {
      if !Truthy(m.id) || m.id.value in seen {
        KeepFirstIsFirst(ms[1..], seen, k - 1);
      } else {
        KeepFirstIsFirst(ms[1..], seen + {m.id.value}, k - 1);
      }
    }
  }

  /** A list whose ids are all truthy and distinct, and none seen, passes unchanged. */
  lemma {:induction false} KeepFirstKeepsDistinct(ms: seq<Member>, seen: set<string>)
    requires DistinctIds(ms)
    requires forall i :: 0 <= i < |ms| ==> Truthy(ms[i].id) && ms[i].id.value !in seen
    ensures KeepFirst(ms, seen) == ms
  {
    if ms != [] {
      var s2 := seen + {ms[0].id.value};
      forall i | 0 <= i < |ms[1..]|
        ensures Truthy(ms[1..][i].id) && ms[1..][i].id.value !in s2
      {
        assert ms[1..][i] == ms[i + 1];
      }
      KeepFirstKeepsDistinct(ms[1..], s2);
    }
  }

  /** The dedup filter of the load and INSERT handlers, with its `seen` set. */
  method Dedup(mapped: seq<Member>) returns (deduped: seq<Member>)
    ensures deduped == KeepFirst(mapped, {})
  {
    var seen: set<string> := {};
    deduped := [];
    var i := 0;
    while i < |mapped|
      invariant 0 <= i <= |mapped|
      invariant deduped + KeepFirst(mapped[i..], seen) == KeepFirst(mapped, {})
    {
      var m := mapped[i];
      assert mapped[i..][1..] == mapped[i + 1..];
      if Truthy(m.id) && m.id.value !in seen {
        seen := seen + {m.id.value};
        deduped := deduped + [m];
      }
      i := i + 1;
    }
    assert mapped[i..] == [];
  }

  /** The list the load and INSERT handlers put on the card. */
  method LoadMembers(links: seq<Link>) returns (members: seq<Member>)
    ensures members == KeepFirst(Map(links, ToMember), {})
    ensures DistinctIds(members) && forall m :: m in members ==> Truthy(m.id)
  {
    members := Dedup(Map(links, ToMember));
    KeepFirstSound(Map(links, ToMember), {});
  }

  /** The list the DELETE handler puts on the card: every link mapped, nothing removed. */
  function OnDelete(links: seq<Link>): (members: seq<Member>)
    ensures |members| == |links|
    ensures forall i :: 0 <= i < |links| ==> members[i] == ToMember(links[i])
  {
    Map(links, ToMember)
  }

  /** Two links to the same member show it twice after a DELETE event, but once after a
      load or an INSERT event. */
  lemma DeleteShowsDuplicates(p: Profile)
    requires Truthy(p.id)
    ensures var links := [Link(Some("a"), Some(p), None), Link(Some("b"), Some(p), None)];
      && |OnDelete(links)| == 2 && !DistinctIds(OnDelete(links))
      && |KeepFirst(Map(links, ToMember), {})| == 1
  {
    var links := [Link(Some("a"), Some(p), None), Link(Some("b"), Some(p), None)];
    var ms := Map(links, ToMember);
    var m := ToMember(links[0]);
    assert ms[0] == m && ms[1] == ToMember(links[1]) == m;
    assert ms[1..][1..] == [];
    assert m.id == p.id;
    assert KeepFirst(ms[1..], {p.id.value}) == [];
    var none: set<string> := {};
    assert none + {p.id.value} == {p.id.value};
  }

  // ---------------------------------------------------------------------
  // Adding, marking safe, counting

  /** `handleAddFamilyMember`: nothing without both a name and a phone; otherwise one member
      with status "unknown" is appended and the others are left as they were. The clock
      reading gives the id and the random code the `FAM-` tag. */
  function AddMember(members: seq<Member>, name: string, phone: string, now: nat, code: string): (r: Option<seq<Member>>)
    ensures r.None? <==> name == "" || phone == ""
    ensures r.Some? ==> |r.value| == |members| + 1 && r.value[..|members|] == members
    ensures r.Some? ==> var m := r.value[|members|];
      m.name == name && m.phone == phone && m.status == Some("unknown") && m.id == Some(IntToString(now)) &&
      m.uniqueId == Some("FAM-" + code)
  {
    if name == "" || phone == "" then None
    else Some(members + [Member(Some(IntToString(now)), name, phone, Some("FAM-" + code), Some("unknown"))])
  }

  /** `handleMarkSafe`: the members with the id become "safe"; every other member is kept. */
  function MarkSafe(members: seq<Member>, memberId: string): (r: seq<Member>)
    ensures |r| == |members|
    ensures forall i :: 0 <= i < |members| && members[i].id == Some(memberId) ==> r[i] == members[i].(status := Some("safe"))
    ensures forall i :: 0 <= i < |members| && members[i].id != Some(memberId) ==> r[i] == members[i]
  {
    if members == [] then []
    else
      var m := members[0];
      [if m.id == Some(memberId) then m.(status := Some("safe")) else m] + MarkSafe(members[1..], memberId)
  }

  function IsSafe(m: Member): bool {
    m.status == Some("safe")
  }

  /** `safeFamilyMembers`: how many members are safe. */
  function SafeCount(members: seq<Member>): (n: nat)
    ensures n <= |members|
  {
    Count(members, IsSafe)
  }

  /** The members with the id who are not safe yet. */
  function NotYetSafe(memberId: string): Member -> bool {
    (m: Member) => m.id == Some(memberId) && !IsSafe(m)
  }

  /** Marking one member safe is idempotent. */
  lemma MarkSafeIdempotent(members: seq<Member>, memberId: string)
    ensures MarkSafe(MarkSafe(members, memberId), memberId) == MarkSafe(members, memberId)
  {
  }

  /** Marking safe never lowers the safe count, and raises it exactly by the number of
      members with that id who were not safe yet. */
  lemma {:induction false} MarkSafeCount(members: seq<Member>, memberId: string)
    ensures SafeCount(MarkSafe(members, memberId)) ==
      SafeCount(members) + Count(members, NotYetSafe(memberId))
  {
    if members != [] {
      MarkSafeCount(members[1..], memberId);
      var r := MarkSafe(members, memberId);
      assert r[1..] == MarkSafe(members[1..], memberId);
    }
  }

  /** An added member is not counted as safe. */
  lemma AddMemberCount(members: seq<Member>, name: string, phone: string, now: nat, code: string)
    requires name != "" && phone != ""
    ensures SafeCount(AddMember(members, name, phone, now, code).value) == SafeCount(members)
  {
    var r := AddMember(members, name, phone, now, code).value;
    assert r == members + [r[|members|]];
    CountAppend(members, [r[|members|]], IsSafe);
  }
}
