/** The navigation bar: its links and which one is active, the language
    toggle, and the notification center — the notification list kept in
    sync by polling, the badge counting what is unread, and the actions that
    mark or delete notifications. Times are integer milliseconds. */
module Navigation {
  import opened Common

  // ---------------------------------------------------------------------
  // Links

  datatype NavItem = NavItem(name: string, href: string, labelKey: string)

  datatype NavUser = NavUser(isAdmin: bool, isOrg: bool)

  /** The dashboard route of a signed-in user: admin, else organization, else the user dashboard. */
  function DashboardHref(user: Option<NavUser>): (r: string)
    ensures user.Some? && user.value.isAdmin ==> r == "/admin"
    ensures user.Some? && !user.value.isAdmin && user.value.isOrg ==> r == "/organization"
    ensures user.None? || (!user.value.isAdmin && !user.value.isOrg) ==> r == "/dashboard"
  {
    if user.Some? && user.value.isAdmin then "/admin"
    else if user.Some? && user.value.isOrg then "/organization"
    else "/dashboard"
  }

  /** `getNavigationItems`: the map and the dashboard when signed in, the map and the alerts otherwise. */
  function NavigationItems(isAuthenticated: bool, user: Option<NavUser>): (r: seq<NavItem>)
    ensures |r| == 2 && r[0] == NavItem("map", "/", "nav.map")
    ensures isAuthenticated ==> r[1] == NavItem("dashboard", DashboardHref(user), "nav.dashboard")
    ensures !isAuthenticated ==> r[1] == NavItem("alerts", "/alerts", "nav.recentAlerts")
  {
    if isAuthenticated then
      [NavItem("map", "/", "nav.map"), NavItem("dashboard", DashboardHref(user), "nav.dashboard")]
    else
      [NavItem("map", "/", "nav.map"), NavItem("alerts", "/alerts", "nav.recentAlerts")]
  }

  /** `isActive`: the root link only on the root page, any other link on every page under it. */
  function IsActive(pathname: string, href: string): (r: bool)
    ensures href == "/" ==> (r <==> pathname == "/")
    ensures href != "/" ==> (r <==> |href| <= |pathname| && pathname[..|href|] == href)
  {
    if href == "/" then pathname == "/" else StartsWith(pathname, href)
  }

  /** Exactly one link is active on the root page when it is the only link whose href is a prefix of it. */
  lemma RootOnlyOnRoot(pathname: string, user: Option<NavUser>)
    requires pathname != "/"
    ensures !IsActive(pathname, NavigationItems(true, user)[0].href)
    ensures !IsActive(pathname, NavigationItems(false, user)[0].href)
  {
  }

  /** The prefix match also lights a link on a page whose name merely begins like it. */
  lemma PrefixMatchesLongerName()
    ensures IsActive("/administrator", "/admin")
  {
    assert "/administrator"[..6] == "/admin";
  }

  /** `handleLanguageToggle`: en becomes my, anything else becomes en. */
  function ToggleLanguage(language: string): (r: string)
    ensures language == "en" ==> r == "my"
    ensures language != "en" ==> r == "en"
  {
    if language == "en" then "my" else "en"
  }

  /** Toggling twice returns to the start from either supported language; any other value settles on en. */
  lemma ToggleTwice(language: string)
    ensures language == "en" || language == "my" ==> ToggleLanguage(ToggleLanguage(language)) == language
    ensures language != "en" && language != "my" ==> ToggleLanguage(language) == "en"
  {
  }

  // ---------------------------------------------------------------------
  // Notifications

  datatype Notification = Notification(id: string, createdAt: int, read: bool, kind: string)

  /** A pending family request shown in the center; only its presence is counted. */
  datatype PendingRequest = PendingRequest(id: string, fromUserId: string)

  function CreatedAt(n: Notification): int { n.createdAt }

  function NotificationId(n: Notification): string { n.id }

  predicate IsUnread(n: Notification) { !n.read }

  /** The number on the bell: unread notifications plus pending requests. */
  function BadgeCount(notifications: seq<Notification>, pending: seq<PendingRequest>): (c: nat)
    ensures c == |Filter(notifications, IsUnread)| + |pending|
  {
    Count(notifications, IsUnread) + |pending|
  }

  /** The badge: shown only above zero, and "99+" above 99. */
  function BadgeText(notifications: seq<Notification>, pending: seq<PendingRequest>): (r: Option<string>)
    ensures r.None? <==> BadgeCount(notifications, pending) == 0
    ensures BadgeCount(notifications, pending) > 99 ==> r == Some("99+")
    ensures 0 < BadgeCount(notifications, pending) <= 99 ==>
      r.Some? && |r.value| <= 2 && (forall i :: 0 <= i < |r.value| ==> '0' <= r.value[i] <= '9') &&
      DigitsValue(r.value) == BadgeCount(notifications, pending)
  {
    var c := BadgeCount(notifications, pending);
    NatToStringRoundTrip(c);
    if c == 0 then None
    else if c > 99 then Some("99+")
    else
      assert NatToString(c) == NatToString(c / 10) + [DigitChar(c % 10)] || c < 10;
      Some(NatToString(c))
  }

  /** What a poll leaves: newest first, one entry per id, every id held before or polled now present,
      a held id keeping one of its held entries and a new id carrying one of its polled entries. */
  ghost predicate MergedFrom(prev: seq<Notification>, refreshed: seq<Notification>, r: seq<Notification>) {
    SortedDesc(r, CreatedAt) &&
    (forall i, j :: 0 <= i < j < |r| ==> r[i].id != r[j].id) &&
    (forall p :: p in prev ==> HasId(r, p.id)) &&
    (forall q :: q in r && HasId(prev, q.id) ==> q in prev) &&
    (forall q :: q in r && !HasId(prev, q.id) ==> q in refreshed) &&
    (forall n :: n in refreshed ==> HasId(r, n.id))
  }

  /** Merges polled notifications into the list: keeps every entry already held (the last copy of an
      id wins, at that id's first place), adds each unseen id once, sorts newest first. */
  method PollMerge(prev: seq<Notification>, refreshed: seq<Notification>) returns (r: seq<Notification>)
    ensures MergedFrom(prev, refreshed, r)
  {
    var keys, byId := IndexById(prev);
    keys, byId := AddUnseen(keys, byId, prev, refreshed);
    var merged := ValuesInOrder(keys, byId);
    ValuesCover(keys, byId, prev, refreshed);
    r := SortDesc(merged, CreatedAt);
    SortDescSorted(merged, CreatedAt);
    PermutationKeepsDistinct(merged, r, NotificationId);
  }

  /** Every entry of the map is filed under its own id. */
  ghost predicate FiledById(m: map<string, Notification>) {
    forall k :: k in m ==> m[k].id == k
  }

  predicate HasId(s: seq<Notification>, id: string) {
    exists p :: p in s && p.id == id
  }

  /** `new Map(prev.map(p => [p.id, p]))`. */
  method IndexById(prev: seq<Notification>) returns (keys: seq<string>, m: map<string, Notification>)
    ensures KeysInOrder(keys, m) && FiledById(m)
    ensures forall k :: k in m ==> m[k] in prev
    ensures forall p :: p in prev ==> p.id in m
  {
    keys, m := [], map[];
    for i := 0 to |prev|
      invariant KeysInOrder(keys, m) && FiledById(m)
      invariant forall k :: k in m ==> m[k] in prev
      invariant forall j :: 0 <= j < i ==> prev[j].id in m
    {
      if prev[i].id !in m {
        keys := keys + [prev[i].id];
      }
      m := m[prev[i].id := prev[i]];
    }
  }

  /** `for (const r of refreshed) if (!map.has(r.id)) map.set(r.id, r)`. */
  method AddUnseen(keys0: seq<string>, m0: map<string, Notification>, prev: seq<Notification>, refreshed: seq<Notification>)
    returns (keys: seq<string>, m: map<string, Notification>)
    requires KeysInOrder(keys0, m0) && FiledById(m0)
    requires forall k :: k in m0 ==> m0[k] in prev
    requires forall p :: p in prev ==> p.id in m0
    ensures KeysInOrder(keys, m) && FiledById(m)
    ensures forall k :: k in m && HasId(prev, k) ==> m[k] in prev
    ensures forall k :: k in m && !HasId(prev, k) ==> m[k] in refreshed
    ensures forall p :: p in prev ==> p.id in m
    ensures forall n :: n in refreshed ==> n.id in m
  {
    keys, m := keys0, m0;
    for i := 0 to |refreshed|
      invariant KeysInOrder(keys, m) && FiledById(m)
      invariant forall k :: k in m && HasId(prev, k) ==> m[k] in prev
      invariant forall k :: k in m && !HasId(prev, k) ==> m[k] in refreshed
      invariant forall p :: p in prev ==> p.id in m
      invariant forall j :: 0 <= j < i ==> refreshed[j].id in m
    {
      var n := refreshed[i];
      if n.id !in m {
        keys := keys + [n.id];
        m := m[n.id := n];
      }
    }
  }

  lemma ValuesCover(keys: seq<string>, m: map<string, Notification>, prev: seq<Notification>, refreshed: seq<Notification>)
    requires KeysInOrder(keys, m) && FiledById(m)
    requires forall k :: k in m && HasId(prev, k) ==> m[k] in prev
    requires forall k :: k in m && !HasId(prev, k) ==> m[k] in refreshed
    requires forall p :: p in prev ==> p.id in m
    requires forall n :: n in refreshed ==> n.id in m
    ensures var v := ValuesInOrder(keys, m);
      (forall i, j :: 0 <= i < j < |v| ==> v[i].id != v[j].id) &&
      (forall p :: p in prev ==> HasId(v, p.id)) &&
      (forall q :: q in v && HasId(prev, q.id) ==> q in prev) &&
      (forall q :: q in v && !HasId(prev, q.id) ==> q in refreshed) &&
      (forall n :: n in refreshed ==> HasId(v, n.id))
  {
    var v := ValuesInOrder(keys, m);
    forall q | q in v
      ensures (HasId(prev, q.id) ==> q in prev) && (!HasId(prev, q.id) ==> q in refreshed)
    {
      var i :| 0 <= i < |v| && v[i] == q;
      assert m[keys[i]] == q;
    }
    forall k | k in m
      ensures HasId(v, k)
    {
      var i :| 0 <= i < |keys| && keys[i] == k;
      assert v[i] in v;
    }
  }

  /** The notification center's lists. */
  class NotificationCenter {
    var notifications: seq<Notification>
    var pendingRequests: seq<PendingRequest>

    constructor ()
      ensures notifications == [] && pendingRequests == []
    {
      notifications := [];
      pendingRequests := [];
    }

    function Badge(): Option<string>
      reads this
    {
      BadgeText(notifications, pendingRequests)
    }

    /** A realtime notification goes on top. */
    method Receive(n: Notification)
      modifies this
      ensures notifications == [n] + old(notifications) && pendingRequests == old(pendingRequests)
    {
      notifications := [n] + notifications;
    }

    /** The polling fallback. */
    method Poll(refreshed: seq<Notification>)
      modifies this
      ensures MergedFrom(old(notifications), refreshed, notifications)
      ensures pendingRequests == old(pendingRequests)
    {
      notifications := PollMerge(notifications, refreshed);
    }

    /** Marks one notification read once the server accepted it; the others are untouched. */
    method MarkRead(id: string, serverOk: bool)
      modifies this
      ensures !serverOk ==> notifications == old(notifications)
      ensures serverOk ==> notifications == MarkedRead(old(notifications), id)
      ensures pendingRequests == old(pendingRequests)
    {
      if serverOk {
        notifications := MarkedRead(notifications, id);
      }
    }

    /** Deletes one notification once the server accepted it. */
    method Delete(id: string, serverOk: bool)
      modifies this
      ensures !serverOk ==> notifications == old(notifications)
      ensures serverOk ==> notifications == Filter(old(notifications), (n: Notification) => n.id != id)
      ensures serverOk ==> !HasId(notifications, id)
      ensures pendingRequests == old(pendingRequests)
    {
      if serverOk {
        notifications := Filter(notifications, (n: Notification) => n.id != id);
      }
    }

    /** "Mark all as read": needs a user; every notification becomes read. */
    method MarkAllRead(userId: Option<string>, serverOk: bool)
      modifies this
      ensures Truthy(userId) && serverOk ==> notifications == AllRead(old(notifications))
      ensures !(Truthy(userId) && serverOk) ==> notifications == old(notifications)
      ensures pendingRequests == old(pendingRequests)
    {
      if !Truthy(userId) {
        return;
      }
      if serverOk {
        notifications := AllRead(notifications);
      }
    }

    /** "Delete all": needs a user; empties the notifications and the pending requests. */
    method DeleteAll(userId: Option<string>, serverOk: bool)
      modifies this
      ensures Truthy(userId) && serverOk ==> notifications == [] && pendingRequests == [] && Badge().None?
      ensures !(Truthy(userId) && serverOk) ==> notifications == old(notifications) && pendingRequests == old(pendingRequests)
    {
      if !Truthy(userId) {
        return;
      }
      if serverOk {
        notifications := [];
        pendingRequests := [];
      }
    }
  }

  /** `prev.map(n => n.id === id ? { ...n, read: true } : n)`. */
  function MarkedRead(ns: seq<Notification>, id: string): (r: seq<Notification>)
    ensures |r| == |ns|
    ensures forall i :: 0 <= i < |ns| && ns[i].id != id ==> r[i] == ns[i]
    ensures forall i :: 0 <= i < |ns| && ns[i].id == id ==> r[i] == ns[i].(read := true)
  {
    Map(ns, (n: Notification) => if n.id == id then n.(read := true) else n)
  }

  /** `prev.map(n => ({ ...n, read: true }))`. */
  function AllRead(ns: seq<Notification>): (r: seq<Notification>)
    ensures |r| == |ns|
    ensures forall i :: 0 <= i < |ns| ==> r[i] == ns[i].(read := true)
  {
    Map(ns, (n: Notification) => n.(read := true))
  }

  /** After "mark all as read" the badge counts only the pending requests. */
  lemma {:induction false} AllReadLeavesPending(ns: seq<Notification>, pending: seq<PendingRequest>)
    ensures BadgeCount(AllRead(ns), pending) == |pending|
  {
    if ns != [] {
      AllReadLeavesPending(ns[1..], pending);
      assert AllRead(ns)[1..] == AllRead(ns[1..]);
    }
  }

  /** Marking one notification read lowers the badge by at most one and never raises it. */
  lemma {:induction false} MarkReadLowersBadge(ns: seq<Notification>, id: string, pending: seq<PendingRequest>)
    ensures BadgeCount(MarkedRead(ns, id), pending) <= BadgeCount(ns, pending)
    ensures (forall i, j :: 0 <= i < j < |ns| ==> ns[i].id != ns[j].id) ==>
      BadgeCount(ns, pending) - BadgeCount(MarkedRead(ns, id), pending) <= 1
  {
    if ns != [] {
      MarkReadLowersBadge(ns[1..], id, pending);
      assert MarkedRead(ns, id)[1..] == MarkedRead(ns[1..], id);
      if (forall i, j :: 0 <= i < j < |ns| ==> ns[i].id != ns[j].id) && ns[0].id == id {
        UnmatchedUnchanged(ns[1..], id);
      }
    }
  }

  lemma UnmatchedUnchanged(ns: seq<Notification>, id: string)
    requires forall n :: n in ns ==> n.id != id
    ensures MarkedRead(ns, id) == ns
  {
  }
}
