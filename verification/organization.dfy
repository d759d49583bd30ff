/** The organization dashboard: accepting (part of) the items a help request
    asks for, the quantities offered in the accept dialog, volunteer approval
    and the counts shown at the top of the page. Auth, routing and rendering
    are not modelled; the signed-in organization's name and the clock are
    parameters. */
module Organization {
  import opened Common

  datatype VolunteerStatus = Active | Inactive | PendingVolunteer

  datatype Volunteer = Volunteer(id: string, name: string, status: VolunteerStatus)

  datatype RequestStatus = Pending | PartiallyAccepted | Completed

  datatype RequiredItem = RequiredItem(category: string, unit: string, quantity: int)

  datatype AcceptedItem = AcceptedItem(
    category: string,
    unit: string,
    originalQuantity: int,
    acceptedQuantity: int,
    remainingQuantity: int,
    acceptedBy: string,
    acceptedAt: int)

  datatype HelpRequest = HelpRequest(
    id: string,
    title: string,
    status: RequestStatus,
    requiredItems: seq<RequiredItem>,
    acceptedItems: Option<seq<AcceptedItem>>)

  datatype PartnerOrg = PartnerOrg(id: string, name: string, active: bool)

  /** The signed-in user as far as this page reads it. */
  datatype User = User(name: Option<string>)

  // ---------------------------------------------------------------------
  // Lookups

  /** `acceptedItems?.find(ai => ai.category === category)`. */
  function FindAccepted(items: Option<seq<AcceptedItem>>, category: string): Option<AcceptedItem> {
    if items.None? then None else FindAcceptedIn(items.value, category)
  }

  function FindAcceptedIn(items: seq<AcceptedItem>, category: string): Option<AcceptedItem> {
    if items == [] then None
    else if items[0].category == category then Some(items[0])
    else FindAcceptedIn(items[1..], category)
  }

  /** `find` returns the first record of the category, and nothing when there is none. */
  lemma {:induction false} FindAcceptedSpec(items: seq<AcceptedItem>, category: string)
    ensures FindAcceptedIn(items, category).None? <==> forall i :: 0 <= i < |items| ==> items[i].category != category
    ensures FindAcceptedIn(items, category).Some? ==>
      exists i :: 0 <= i < |items| && items[i] == FindAcceptedIn(items, category).value &&
        items[i].category == category && (forall j :: 0 <= j < i ==> items[j].category != category)
  {
    if items != [] && items[0].category != category {
      FindAcceptedSpec(items[1..], category);
      var r := FindAcceptedIn(items[1..], category);
      assert forall j :: 0 < j < |items| ==> items[j] == items[1..][j - 1];
      if r.Some? {
        var i :| 0 <= i < |items[1..]| && items[1..][i] == r.value && items[1..][i].category == category &&
                 (forall j :: 0 <= j < i ==> items[1..][j].category != category);
        assert items[i + 1] == r.value;
      }
    } else if items != [] {
      assert items[0] == FindAcceptedIn(items, category).value;
    }
  }

  /** `requiredItems.find(ri => ri.category === category)`. */
  function FindRequired(items: seq<RequiredItem>, category: string): Option<RequiredItem> {
    if items == [] then None
    else if items[0].category == category then Some(items[0])
    else FindRequired(items[1..], category)
  }

  lemma {:induction false} FindRequiredNone(items: seq<RequiredItem>, category: string)
    ensures FindRequired(items, category).None? <==> forall i :: 0 <= i < |items| ==> items[i].category != category
  {
    if items != [] && items[0].category != category {
      FindRequiredNone(items[1..], category);
      assert forall i :: 0 < i < |items| ==> items[i] == items[1..][i - 1];
    }
  }

  /** `getRemainingQuantity`: nothing is left of an unknown category; otherwise the
      accepted record's remainder, or the required quantity when nothing was accepted. */
  function GetRemainingQuantity(request: HelpRequest, category: string): (n: int)
    ensures FindRequired(request.requiredItems, category).None? ==> n == 0
    ensures FindRequired(request.requiredItems, category).Some? && FindAccepted(request.acceptedItems, category).Some? ==>
      n == FindAccepted(request.acceptedItems, category).value.remainingQuantity
    ensures FindRequired(request.requiredItems, category).Some? && FindAccepted(request.acceptedItems, category).None? ==>
      n == FindRequired(request.requiredItems, category).value.quantity
  {
    match FindRequired(request.requiredItems, category)
    case None => 0
    case Some(item) =>
      match FindAccepted(request.acceptedItems, category)
      case Some(accepted) => accepted.remainingQuantity
      case None => item.quantity
  }

  // ---------------------------------------------------------------------
  // Accepting items

  /** `x || d` on a number that may be absent: absent and 0 both fall back to d. */
  function NumberOr(x: Option<int>, d: int): (r: int)
    ensures x.Some? && x.value != 0 ==> r == x.value
    ensures x.None? || x.value == 0 ==> r == d
  {
    if x.Some? && x.value != 0 then x.value else d
  }

  /** `acceptQuantities[category] || 0`. */
  function OfferedQuantity(quantities: map<string, int>, category: string): int {
    if category in quantities then quantities[category] else 0
  }

  /** What stays fixed while the accept loop runs. */
  datatype AcceptContext = AcceptContext(
    existing: Option<seq<AcceptedItem>>,
    quantities: map<string, int>,
    acceptedBy: string,
    now: int)

  function Existing(c: AcceptContext, item: RequiredItem): Option<AcceptedItem> {
    FindAccepted(c.existing, item.category)
  }

  function OriginalQuantity(c: AcceptContext, item: RequiredItem): int {
    var e := Existing(c, item);
    NumberOr(if e.Some? then Some(e.value.originalQuantity) else None, item.quantity)
  }

  function PreviousAccepted(c: AcceptContext, item: RequiredItem): int {
    var e := Existing(c, item);
    NumberOr(if e.Some? then Some(e.value.acceptedQuantity) else None, 0)
  }

  function CurrentRemaining(c: AcceptContext, item: RequiredItem): int {
    var e := Existing(c, item);
    NumberOr(if e.Some? then Some(e.value.remainingQuantity) else None, item.quantity)
  }

  /** The offer for this item is positive and no larger than what is still needed. */
  predicate IsNewAcceptance(c: AcceptContext, item: RequiredItem) {
    var q := OfferedQuantity(c.quantities, item.category);
    0 < q <= CurrentRemaining(c, item)
  }

  /** The record the loop pushes for a new acceptance. */
  function NewAccepted(c: AcceptContext, item: RequiredItem): AcceptedItem
    requires IsNewAcceptance(c, item)
  {
    var total := PreviousAccepted(c, item) + OfferedQuantity(c.quantities, item.category);
    AcceptedItem(item.category, item.unit, OriginalQuantity(c, item), total,
                 OriginalQuantity(c, item) - total, c.acceptedBy, c.now)
  }

  /** What one pass of the loop pushes onto `newAcceptedItems`. */
  function AcceptedFor(c: AcceptContext, item: RequiredItem): seq<AcceptedItem> {
    if IsNewAcceptance(c, item) then [NewAccepted(c, item)]
    else if Existing(c, item).Some? then [Existing(c, item).value]
    else []
  }

  /** What one pass of the loop pushes onto `updatedRequiredItems`. */
  function RequiredFor(c: AcceptContext, item: RequiredItem): RequiredItem {
    if IsNewAcceptance(c, item) then RequiredItem(item.category, item.unit, NewAccepted(c, item).remainingQuantity)
    else if Existing(c, item).Some? then RequiredItem(item.category, item.unit, Existing(c, item).value.remainingQuantity)
    else item
  }

  function AcceptedList(items: seq<RequiredItem>, c: AcceptContext): seq<AcceptedItem> {
    if items == [] then [] else AcceptedList(items[..|items| - 1], c) + AcceptedFor(c, items[|items| - 1])
  }

  function RequiredList(items: seq<RequiredItem>, c: AcceptContext): seq<RequiredItem> {
    if items == [] then [] else RequiredList(items[..|items| - 1], c) + [RequiredFor(c, items[|items| - 1])]
  }

  predicate AnyNew(items: seq<RequiredItem>, c: AcceptContext) {
    exists i :: 0 <= i < |items| && IsNewAcceptance(c, items[i])
  }

  /** `updatedRequiredItems.every(item => item.quantity === 0)`. */
  function AllZero(items: seq<RequiredItem>): (b: bool)
    ensures b <==> forall i :: 0 <= i < |items| ==> items[i].quantity == 0
  {
    if items == [] then true
    else
      assert forall i :: 0 < i < |items| ==> items[i] == items[1..][i - 1];
      items[0].quantity == 0 && AllZero(items[1..])
  }

  /** The request as `handleAcceptRequest` rewrites it. */
  /** The status after an acceptance: completed exactly when nothing is still required. */
  function StatusAfter(required: seq<RequiredItem>): RequestStatus {
    if AllZero(required) then Completed else PartiallyAccepted
  }

  /** `requests.map(req => req.id === id ? {...req, status, requiredItems, acceptedItems} : req)`:
      each request with the id keeps its own other fields. */
  function WithAcceptance(requests: seq<HelpRequest>, id: string, status: RequestStatus,
                          required: seq<RequiredItem>, accepted: Option<seq<AcceptedItem>>): (r: seq<HelpRequest>)
    ensures |r| == |requests|
    ensures forall i :: 0 <= i < |requests| ==>
      r[i] == if requests[i].id == id
              then requests[i].(status := status, requiredItems := required, acceptedItems := accepted)
              else requests[i]
  {
    seq(|requests|, i requires 0 <= i < |requests| =>
      if requests[i].id == id then requests[i].(status := status, requiredItems := required, acceptedItems := accepted)
      else requests[i])
  }

  function WithVolunteerStatus(vs: seq<Volunteer>, id: string, status: VolunteerStatus): (r: seq<Volunteer>)
    ensures |r| == |vs|
    ensures forall i :: 0 <= i < |vs| ==> r[i] == (if vs[i].id == id then vs[i].(status := status) else vs[i])
  {
    seq(|vs|, i requires 0 <= i < |vs| => if vs[i].id == id then vs[i].(status := status) else vs[i])
  }

  /** `Math.max(0, Math.min(maxQty, parseInt(value) || 0))`; an unparsable entry is None. */
  function ClampQuantity(typed: Option<int>, maxQty: int): (r: int)
    ensures r >= 0
    ensures maxQty >= 0 ==> r <= maxQty
    ensures typed.Some? && 0 <= typed.value <= maxQty ==> r == typed.value
    ensures typed.None? ==> r == 0
    ensures typed.Some? && typed.value > maxQty >= 0 ==> r == maxQty
    ensures typed.Some? && typed.value < 0 ==> r == 0
    ensures maxQty < 0 ==> r == 0
  {
    var v := NumberOr(typed, 0);
    var m := if maxQty < v then maxQty else v;
    if m < 0 then 0 else m
  }

  // ---------------------------------------------------------------------
  // The page state

  class OrganizationPage {
    var volunteers: seq<Volunteer>
    var helpRequests: seq<HelpRequest>
    var partnerOrgs: seq<PartnerOrg>
    var selectedRequest: Option<HelpRequest>
    var acceptQuantities: map<string, int>
    var showAcceptDialog: bool

    constructor(volunteers: seq<Volunteer>, requests: seq<HelpRequest>, partners: seq<PartnerOrg>)
      ensures this.volunteers == volunteers && helpRequests == requests && partnerOrgs == partners
      ensures selectedRequest == None && acceptQuantities == map[] && !showAcceptDialog
    {
      this.volunteers := volunteers;
      helpRequests := requests;
      partnerOrgs := partners;
      selectedRequest := None;
      acceptQuantities := map[];
      showAcceptDialog := false;
    }

    /** `handleApproveVolunteer`. */
    method ApproveVolunteer(id: string)
      modifies this
      ensures volunteers == WithVolunteerStatus(old(volunteers), id, Active)
      ensures helpRequests == old(helpRequests) && partnerOrgs == old(partnerOrgs)
      ensures selectedRequest == old(selectedRequest) && acceptQuantities == old(acceptQuantities)
      ensures showAcceptDialog == old(showAcceptDialog)
    {
      volunteers := WithVolunteerStatus(volunteers, id, Active);
    }

    /** `handleRejectVolunteer`. */
    method RejectVolunteer(id: string)
      modifies this
      ensures volunteers == WithVolunteerStatus(old(volunteers), id, Inactive)
      ensures helpRequests == old(helpRequests) && partnerOrgs == old(partnerOrgs)
      ensures selectedRequest == old(selectedRequest) && acceptQuantities == old(acceptQuantities)
      ensures showAcceptDialog == old(showAcceptDialog)
    {
      volunteers := WithVolunteerStatus(volunteers, id, Inactive);
    }

    /** `handleViewRequest`: select the request and offer, per category, what is still needed. */
    method ViewRequest(request: HelpRequest)
      modifies this
      ensures selectedRequest == Some(request)
      ensures acceptQuantities == InitialQuantities(request, request.requiredItems)
      ensures volunteers == old(volunteers) && helpRequests == old(helpRequests) && partnerOrgs == old(partnerOrgs)
      ensures showAcceptDialog == old(showAcceptDialog)
    {
      selectedRequest := Some(request);
      var quantities: map<string, int> := map[];
      var i := 0;
      while i < |request.requiredItems|
        invariant 0 <= i <= |request.requiredItems|
        invariant quantities == InitialQuantities(request, request.requiredItems[..i])
      {
        var item := request.requiredItems[i];
        var accepted := FindAccepted(request.acceptedItems, item.category);
        assert request.requiredItems[..i + 1][..i] == request.requiredItems[..i];
        quantities := quantities[item.category := if accepted.Some? then accepted.value.remainingQuantity else item.quantity];
        i := i + 1;
      }
      assert request.requiredItems[..i] == request.requiredItems;
      acceptQuantities := quantities;
    }

    /** The dialog's number input for one category, clamped to what is still needed. */
    method SetQuantity(category: string, typed: Option<int>)
      requires selectedRequest.Some?
      modifies this
      ensures selectedRequest == old(selectedRequest) && helpRequests == old(helpRequests)
      ensures acceptQuantities == old(acceptQuantities)[category :=
        ClampQuantity(typed, GetRemainingQuantity(selectedRequest.value, category))]
      ensures volunteers == old(volunteers) && partnerOrgs == old(partnerOrgs)
      ensures showAcceptDialog == old(showAcceptDialog)
    {
      var maxQty := GetRemainingQuantity(selectedRequest.value, category);
      acceptQuantities := acceptQuantities[category := ClampQuantity(typed, maxQty)];
    }

    /** `handleAcceptRequest`. */
    method AcceptRequest(user: Option<User>, now: int)
      modifies this
      ensures old(selectedRequest).None? || user.None? ==>
        helpRequests == old(helpRequests) && selectedRequest == old(selectedRequest) &&
        acceptQuantities == old(acceptQuantities) && showAcceptDialog == old(showAcceptDialog)
      ensures old(selectedRequest).Some? && user.Some? ==>
        var sel := old(selectedRequest).value;
        var c := AcceptContext(sel.acceptedItems, old(acceptQuantities), OrElse(user.value.name, "Your Organization"), now);
        if AnyNew(sel.requiredItems, c) then
          var required := RequiredList(sel.requiredItems, c);
          helpRequests == WithAcceptance(old(helpRequests), sel.id, StatusAfter(required), required,
                                         Some(AcceptedList(sel.requiredItems, c))) &&
          selectedRequest == None && acceptQuantities == map[] && !showAcceptDialog
        else
          helpRequests == old(helpRequests) && selectedRequest == old(selectedRequest) &&
          acceptQuantities == old(acceptQuantities) && showAcceptDialog == old(showAcceptDialog)
      ensures volunteers == old(volunteers) && partnerOrgs == old(partnerOrgs)
    {
      if selectedRequest.None? || user.None? {
        return;
      }
      var sel := selectedRequest.value;
      var c := AcceptContext(sel.acceptedItems, acceptQuantities, OrElse(user.value.name, "Your Organization"), now);
      var newAcceptedItems, updatedRequiredItems, hasNewAcceptance := CollectAcceptance(sel.requiredItems, c);
      if !hasNewAcceptance {
        return;
      }
      var newStatus := if AllZero(updatedRequiredItems) then Completed else PartiallyAccepted;
      helpRequests := WithAcceptance(helpRequests, sel.id, newStatus, updatedRequiredItems, Some(newAcceptedItems));
      showAcceptDialog := false;
      selectedRequest := None;
      acceptQuantities := map[];
    }
  }

  /** The `forEach` of `handleAcceptRequest`: the lists it builds and whether any item got a new acceptance. */
  method CollectAcceptance(items: seq<RequiredItem>, c: AcceptContext)
    returns (newAcceptedItems: seq<AcceptedItem>, updatedRequiredItems: seq<RequiredItem>, hasNewAcceptance: bool)
    ensures newAcceptedItems == AcceptedList(items, c)
    ensures updatedRequiredItems == RequiredList(items, c)
    ensures hasNewAcceptance <==> AnyNew(items, c)
  {
    newAcceptedItems := [];
    updatedRequiredItems := [];
    hasNewAcceptance := false;
    var i := 0;
    while i < |items|
      invariant 0 <= i <= |items|
      invariant newAcceptedItems == AcceptedList(items[..i], c)
      invariant updatedRequiredItems == RequiredList(items[..i], c)
      invariant hasNewAcceptance <==> AnyNew(items[..i], c)
    {
      assert items[..i + 1][..i] == items[..i];
      var accepted, required, isNew := AcceptItem(c, items[i]);
      hasNewAcceptance := hasNewAcceptance || isNew;
      newAcceptedItems := newAcceptedItems + accepted;
      updatedRequiredItems := updatedRequiredItems + [required];
      i := i + 1;
    }
    assert items[..i] == items;
  }

  /** The body of the `forEach` in `handleAcceptRequest` for one required item: what it
      pushes onto the accepted and the required lists, and whether it set `hasNewAcceptance`. */
  method AcceptItem(c: AcceptContext, item: RequiredItem)
    returns (accepted: seq<AcceptedItem>, required: RequiredItem, isNew: bool)
    ensures accepted == AcceptedFor(c, item) && required == RequiredFor(c, item)
    ensures isNew == IsNewAcceptance(c, item)
  {
    var acceptedQty := OfferedQuantity(c.quantities, item.category);
    var existingAccepted := FindAccepted(c.existing, item.category);
    var originalQty := NumberOr(if existingAccepted.Some? then Some(existingAccepted.value.originalQuantity) else None, item.quantity);
    var previousAccepted := NumberOr(if existingAccepted.Some? then Some(existingAccepted.value.acceptedQuantity) else None, 0);
    var currentRemaining := NumberOr(if existingAccepted.Some? then Some(existingAccepted.value.remainingQuantity) else None, item.quantity);
    if acceptedQty > 0 && acceptedQty <= currentRemaining {
      isNew := true;
      var newAcceptedQty := previousAccepted + acceptedQty;
      var remainingQty := originalQty - newAcceptedQty;
      accepted := [AcceptedItem(item.category, item.unit, originalQty, newAcceptedQty, remainingQty, c.acceptedBy, c.now)];
      required := RequiredItem(item.category, item.unit, remainingQty);
    } else {
      isNew := false;
      if existingAccepted.Some? {
        accepted := [existingAccepted.value];
        required := RequiredItem(item.category, item.unit, existingAccepted.value.remainingQuantity);
      } else {
        accepted := [];
        required := item;
      }
    }
  }

  /** The record `handleViewRequest` builds from the given items, later items overwriting earlier ones. */
  function InitialQuantities(request: HelpRequest, items: seq<RequiredItem>): map<string, int> {
    if items == [] then map[]
    else
      var item := items[|items| - 1];
      var accepted := FindAccepted(request.acceptedItems, item.category);
      InitialQuantities(request, items[..|items| - 1])[item.category := if accepted.Some? then accepted.value.remainingQuantity else item.quantity]
  }

  // ---------------------------------------------------------------------
  // Counts

  function ActiveVolunteers(vs: seq<Volunteer>): nat {
    Count(vs, (v: Volunteer) => v.status == Active)
  }

  function PendingVolunteers(vs: seq<Volunteer>): nat {
    Count(vs, (v: Volunteer) => v.status == PendingVolunteer)
  }

  /** Requests still open: pending or partially accepted. */
  function PendingRequests(rs: seq<HelpRequest>): nat {
    Count(rs, (r: HelpRequest) => r.status == Pending || r.status == PartiallyAccepted)
  }

  /** The list shown on the requests tab: everything not completed. */
  function ConfirmedHelpRequests(rs: seq<HelpRequest>): seq<HelpRequest> {
    Filter(rs, (r: HelpRequest) => r.status != Completed)
  }

  function ActiveCollaborations(ps: seq<PartnerOrg>): nat {
    Count(ps, (p: PartnerOrg) => p.active)
  }

  // ---------------------------------------------------------------------
  // Properties

  lemma {:induction false} RequiredListSpec(items: seq<RequiredItem>, c: AcceptContext)
    ensures |RequiredList(items, c)| == |items|
    ensures forall i :: 0 <= i < |items| ==> RequiredList(items, c)[i] == RequiredFor(c, items[i])
  {
    if items != [] {
      var n := |items| - 1;
      RequiredListSpec(items[..n], c);
      assert forall i :: 0 <= i < n ==> items[..n][i] == items[i];
    }
  }

  /** For a newly accepted item: the accepted total grows by the offer, accepted plus
      remaining equals the original quantity, and the item now asks for the remainder. */
  lemma NewAcceptanceConserves(c: AcceptContext, item: RequiredItem)
    requires IsNewAcceptance(c, item)
    ensures var a := NewAccepted(c, item);
      AcceptedFor(c, item) == [a] &&
      a.acceptedQuantity == PreviousAccepted(c, item) + OfferedQuantity(c.quantities, item.category) &&
      a.acceptedQuantity + a.remainingQuantity == a.originalQuantity &&
      RequiredFor(c, item).quantity == a.remainingQuantity &&
      RequiredFor(c, item).category == item.category
  {
  }

  /** An item with no new offer keeps its accepted record, and asks for that record's remainder,
      or is copied unchanged when it has none. */
  lemma KeptItemUnchanged(c: AcceptContext, item: RequiredItem)
    requires !IsNewAcceptance(c, item)
    ensures Existing(c, item).Some? ==>
      AcceptedFor(c, item) == [Existing(c, item).value] &&
      RequiredFor(c, item) == item.(quantity := Existing(c, item).value.remainingQuantity)
    ensures Existing(c, item).None? ==> AcceptedFor(c, item) == [] && RequiredFor(c, item) == item
  {
  }

  /** Because `||` is used, a recorded original quantity of 0 counts as missing and the
      required quantity takes its place. */
  lemma ZeroOriginalFallsBack(c: AcceptContext, item: RequiredItem)
    requires Existing(c, item).Some? && Existing(c, item).value.originalQuantity == 0
    ensures OriginalQuantity(c, item) == item.quantity
  {
  }

  /** The new status is "completed" exactly when every updated item asks for nothing more. */
  lemma CompletedIffNothingLeft(req: HelpRequest, c: AcceptContext)
    ensures StatusAfter(RequiredList(req.requiredItems, c)) == Completed <==>
      forall i :: 0 <= i < |req.requiredItems| ==> RequiredFor(c, req.requiredItems[i]).quantity == 0
    ensures StatusAfter(RequiredList(req.requiredItems, c)) in {Completed, PartiallyAccepted}
  {
    RequiredListSpec(req.requiredItems, c);
  }

  /** The dialog starts each category at the quantity `getRemainingQuantity` reports,
      when categories are not repeated. */
  lemma {:induction false} InitialQuantitiesAreRemaining(request: HelpRequest, k: nat)
    requires k <= |request.requiredItems|
    requires forall i, j :: 0 <= i < j < |request.requiredItems| ==> request.requiredItems[i].category != request.requiredItems[j].category
    ensures var items := request.requiredItems;
      forall i :: 0 <= i < k ==>
        items[i].category in InitialQuantities(request, items[..k]) &&
        InitialQuantities(request, items[..k])[items[i].category] == GetRemainingQuantity(request, items[i].category)
  {
    var items := request.requiredItems;
    if k > 0 {
      var n := k - 1;
      InitialQuantitiesAreRemaining(request, n);
      assert items[..k][..n] == items[..n];
      assert items[..k][n] == items[n];
      forall i | 0 <= i < k
        ensures items[i].category in InitialQuantities(request, items[..k])
        ensures InitialQuantities(request, items[..k])[items[i].category] == GetRemainingQuantity(request, items[i].category)
      {
        FirstRequired(items, i);
        if i < n {
          assert items[i].category != items[n].category;
        }
      }
    }
  }

  /** With distinct categories, `find` on the required items returns the item itself. */
  lemma {:induction false} FirstRequired(items: seq<RequiredItem>, i: nat)
    requires i < |items|
    requires forall a, b :: 0 <= a < b < |items| ==> items[a].category != items[b].category
    ensures FindRequired(items, items[i].category) == Some(items[i])
  {
    if i > 0 {
      assert items[0].category != items[i].category;
      FirstRequired(items[1..], i - 1);
    }
  }

  /** Approving sets exactly the matching volunteers active; the active count grows by those that were not. */
  lemma {:induction false} ApproveCount(vs: seq<Volunteer>, id: string)
    ensures ActiveVolunteers(WithVolunteerStatus(vs, id, Active)) ==
      ActiveVolunteers(vs) + Count(vs, (v: Volunteer) => v.id == id && v.status != Active)
  {
    if vs != [] {
      var w := WithVolunteerStatus(vs, id, Active);
      var p := (v: Volunteer) => v.id == id && v.status != Active;
      ApproveCount(vs[1..], id);
      assert w[1..] == WithVolunteerStatus(vs[1..], id, Active);
      assert ActiveVolunteers(w) == (if w[0].status == Active then 1 else 0) + ActiveVolunteers(w[1..]);
      assert ActiveVolunteers(vs) == (if vs[0].status == Active then 1 else 0) + ActiveVolunteers(vs[1..]);
      assert Count(vs, p) == (if p(vs[0]) then 1 else 0) + Count(vs[1..], p);
    }
  }

  /** Open requests are exactly the ones listed on the requests tab. */
  lemma {:induction false} PendingRequestsListed(rs: seq<HelpRequest>)
    ensures PendingRequests(rs) == |ConfirmedHelpRequests(rs)|
  {
    if rs != [] {
      PendingRequestsListed(rs[1..]);
    }
  }
}
