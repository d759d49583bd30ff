/** The administrator's page: the list of relief organizations, the form
    that registers or edits one, approval and rejection, deletion, and the
    figures shown above the list. */
module Admin {
  import opened Common

  datatype OrgStatus = Active | Inactive | Pending

  datatype Organization = Organization(
    id: string, name: string, username: string, password: string, region: string,
    funding: string, volunteerCount: nat, status: OrgStatus, createdAt: int,
    contactEmail: string, contactPhone: string)

  /** The registration and edit form. */
  datatype Form = Form(
    name: string, username: string, password: string, region: string,
    funding: string, contactEmail: string, contactPhone: string)

  const EmptyForm := Form("", "", "", "", "", "", "")

  /** The form filled with an organization's fields, as the edit button does. */
  function FormOf(org: Organization): Form {
    Form(org.name, org.username, org.password, org.region, org.funding, org.contactEmail, org.contactPhone)
  }

  /** `{ ...org, ...form }`: the form's fields over the organization's. */
  function MergeForm(org: Organization, form: Form): (r: Organization)
    ensures r.id == org.id && r.volunteerCount == org.volunteerCount && r.status == org.status && r.createdAt == org.createdAt
    ensures FormOf(r) == form
  {
    org.(name := form.name, username := form.username, password := form.password, region := form.region,
         funding := form.funding, contactEmail := form.contactEmail, contactPhone := form.contactPhone)
  }

  /** Name, username, password and region are required. */
  predicate Complete(form: Form) {
    form.name != "" && form.username != "" && form.password != "" && form.region != ""
  }

  /** A registered organization: pending, no volunteers, "$0" funding when none was given, its id
      the registration time in decimal. */
  function NewOrganization(form: Form, now: int): (org: Organization)
    ensures org.status == Pending && org.volunteerCount == 0
    ensures org.funding == (if form.funding == "" then "$0" else form.funding)
    ensures org.id == IntToString(now) && org.createdAt == now
  {
    Organization(IntToString(now), form.name, form.username, form.password, form.region,
                 if form.funding == "" then "$0" else form.funding, 0, Pending, now,
                 form.contactEmail, form.contactPhone)
  }

  // ---------------------------------------------------------------------
  // List updates

  /** `orgs.map(org => org.id === id ? { ...org, status } : org)`. */
  function WithStatus(orgs: seq<Organization>, id: string, status: OrgStatus): (r: seq<Organization>)
    ensures |r| == |orgs|
    ensures forall i :: 0 <= i < |orgs| && orgs[i].id != id ==> r[i] == orgs[i]
    ensures forall i :: 0 <= i < |orgs| && orgs[i].id == id ==> r[i] == orgs[i].(status := status)
  {
    if orgs == [] then []
    else [if orgs[0].id == id then orgs[0].(status := status) else orgs[0]] + WithStatus(orgs[1..], id, status)
  }

  /** `orgs.map(org => org.id === id ? { ...org, ...form } : org)`. */
  function WithForm(orgs: seq<Organization>, id: string, form: Form): (r: seq<Organization>)
    ensures |r| == |orgs|
    ensures forall i :: 0 <= i < |orgs| && orgs[i].id != id ==> r[i] == orgs[i]
    ensures forall i :: 0 <= i < |orgs| && orgs[i].id == id ==> r[i] == MergeForm(orgs[i], form)
  {
    if orgs == [] then []
    else [if orgs[0].id == id then MergeForm(orgs[0], form) else orgs[0]] + WithForm(orgs[1..], id, form)
  }

  function OtherId(id: string): Organization -> bool {
    (org: Organization) => org.id != id
  }

  function HasId(id: string): Organization -> bool {
    (org: Organization) => org.id == id
  }

  function HasStatus(status: OrgStatus): Organization -> bool {
    (org: Organization) => org.status == status
  }

  // ---------------------------------------------------------------------
  // The page

  class AdminPage {
    var organizations: seq<Organization>
    var editing: Option<Organization>
    var form: Form
    var dialogOpen: bool

    constructor (initial: seq<Organization>)
      ensures organizations == initial && editing == None && form == EmptyForm && !dialogOpen
    {
      organizations := initial;
      editing := None;
      form := EmptyForm;
      dialogOpen := false;
    }

    /** `handleRegisterOrganization`: an incomplete form changes nothing; otherwise the new
        organization goes last, the form is cleared and the dialog closed. */
    method Register(now: int)
      modifies this
      ensures !Complete(old(form)) ==> organizations == old(organizations) && form == old(form) && dialogOpen == old(dialogOpen)
      ensures Complete(old(form)) ==>
        organizations == old(organizations) + [NewOrganization(old(form), now)] && form == EmptyForm && !dialogOpen
      ensures editing == old(editing)
    {
      if !Complete(form) {
        return;
      }
      organizations := organizations + [NewOrganization(form, now)];
      form := EmptyForm;
      dialogOpen := false;
    }

    /** `handleEditOrganization`: remembers the organization and fills the form from it. */
    method Edit(org: Organization)
      modifies this
      ensures editing == Some(org) && form == FormOf(org) && dialogOpen && organizations == old(organizations)
    {
      editing := Some(org);
      form := FormOf(org);
      dialogOpen := true;
    }

    /** `handleUpdateOrganization`: without an organization being edited nothing happens; otherwise
        the form is merged into every organization with its id, and the form is reset. */
    method Update()
      modifies this
      ensures old(editing).None? ==> organizations == old(organizations) && form == old(form) && editing == None && dialogOpen == old(dialogOpen)
      ensures old(editing).Some? ==>
        organizations == WithForm(old(organizations), old(editing).value.id, old(form)) &&
        editing == None && form == EmptyForm && !dialogOpen
    {
      if editing.None? {
        return;
      }
      organizations := WithForm(organizations, editing.value.id, form);
      editing := None;
      form := EmptyForm;
      dialogOpen := false;
    }

    /** `handleDeleteOrganization`: once confirmed, every organization with the id is removed. */
    method Delete(orgId: string, confirmed: bool)
      modifies this
      ensures !confirmed ==> organizations == old(organizations)
      ensures confirmed ==> organizations == Filter(old(organizations), OtherId(orgId))
      ensures confirmed ==> forall org :: org in organizations ==> org.id != orgId
      ensures forall org :: org in old(organizations) && org.id != orgId ==> org in organizations
      ensures forall org :: org in organizations ==> org in old(organizations)
      ensures editing == old(editing) && form == old(form) && dialogOpen == old(dialogOpen)
    {
      if confirmed {
        organizations := Filter(organizations, OtherId(orgId));
      }
    }

    /** `handleApproveOrganization`. */
    method Approve(orgId: string)
      modifies this
      ensures organizations == WithStatus(old(organizations), orgId, Active)
      ensures editing == old(editing) && form == old(form) && dialogOpen == old(dialogOpen)
    {
      organizations := WithStatus(organizations, orgId, Active);
    }

    /** `handleRejectOrganization`. */
    method Reject(orgId: string)
      modifies this
      ensures organizations == WithStatus(old(organizations), orgId, Inactive)
      ensures editing == old(editing) && form == old(form) && dialogOpen == old(dialogOpen)
    {
      organizations := WithStatus(organizations, orgId, Inactive);
    }
  }

  // ---------------------------------------------------------------------
  // The figures

  /** How many organizations have the status; none exactly when no organization has it. */
  function StatusCount(orgs: seq<Organization>, status: OrgStatus): (n: nat)
    ensures n <= |orgs|
    ensures n == 0 <==> forall i :: 0 <= i < |orgs| ==> orgs[i].status != status
  {
    var kept := Filter(orgs, HasStatus(status));
    assert kept != [] ==> kept[0] in kept;
    assert forall i :: 0 <= i < |orgs| && orgs[i].status == status ==> orgs[i] in kept;
    Count(orgs, HasStatus(status))
  }

  /** The sum of the volunteer counts: no organization has more volunteers than the total. */
  function TotalVolunteers(orgs: seq<Organization>): (n: nat)
    ensures forall i :: 0 <= i < |orgs| ==> orgs[i].volunteerCount <= n
  {
    if orgs == [] then 0
    else
      var rest := TotalVolunteers(orgs[1..]);
      assert forall i :: 1 <= i < |orgs| ==> orgs[i] == orgs[1..][i - 1];
      orgs[0].volunteerCount + rest
  }

  function IsDigitRule(): char -> bool {
    (c: char) => '0' <= c <= '9'
  }

  /** `parseInt(funding.replace(/[^0-9]/g, ''))`: the value of the digits, or None (NaN) when
      there are none. */
  function FundingAmount(funding: string): (r: Option<nat>)
    ensures r.None? <==> forall i :: 0 <= i < |funding| ==> !('0' <= funding[i] <= '9')
  {
    var digits := Filter(funding, IsDigitRule());
    assert forall i :: 0 <= i < |digits| ==> '0' <= digits[i] <= '9' by {
      forall i | 0 <= i < |digits|
        ensures '0' <= digits[i] <= '9'
      {
        assert digits[i] in digits;
      }
    }
    assert digits == [] <==> forall i :: 0 <= i < |funding| ==> !('0' <= funding[i] <= '9') by {
      if digits == [] {
        forall i | 0 <= i < |funding|
          ensures !('0' <= funding[i] <= '9')
        {
          assert funding[i] in funding;
        }
      } else {
        assert digits[0] in digits;
      }
    }
    if digits == [] then None else Some(DigitsValue(digits))
  }

  /** The funding total; one organization whose funding has no digit makes it NaN (None). */
  function TotalFunding(orgs: seq<Organization>): (r: Option<nat>)
    ensures r.Some? ==> forall i :: 0 <= i < |orgs| ==>
      FundingAmount(orgs[i].funding).Some? && FundingAmount(orgs[i].funding).value <= r.value
  {
    if orgs == [] then Some(0)
    else
      var head := FundingAmount(orgs[0].funding);
      var rest := TotalFunding(orgs[1..]);
      assert forall i :: 1 <= i < |orgs| ==> orgs[i] == orgs[1..][i - 1];
      if head.None? || rest.None? then None else Some(head.value + rest.value)
  }

  /** The total is a number exactly when every funding string holds a digit. */
  lemma {:induction false} FundingNaNIffDigitless(orgs: seq<Organization>)
    ensures TotalFunding(orgs).None? <==> exists i :: 0 <= i < |orgs| && FundingAmount(orgs[i].funding).None?
  {
    if orgs != [] {
      FundingNaNIffDigitless(orgs[1..]);
      if TotalFunding(orgs[1..]).None? {
        var i :| 0 <= i < |orgs[1..]| && FundingAmount(orgs[1..][i].funding).None?;
        assert orgs[i + 1] == orgs[1..][i];
      }
      if exists i :: 0 <= i < |orgs| && FundingAmount(orgs[i].funding).None? {
        var i :| 0 <= i < |orgs| && FundingAmount(orgs[i].funding).None?;
        if i > 0 {
          assert orgs[1..][i - 1] == orgs[i];
        }
      }
    }
  }

  /** Registering without a funding figure records "$0", which counts as 0 and keeps the total a number. */
  lemma DefaultFundingIsZero(form: Form, now: int)
    requires form.funding == ""
    ensures FundingAmount(NewOrganization(form, now).funding) == Some(0)
  {
    var digits := Filter("$0", IsDigitRule());
    assert digits == "0";
  }

  /** Lists with the same volunteer count at each place have the same total. */
  lemma {:induction false} SameVolunteers(a: seq<Organization>, b: seq<Organization>)
    requires |a| == |b|
    requires forall i :: 0 <= i < |a| ==> a[i].volunteerCount == b[i].volunteerCount
    ensures TotalVolunteers(a) == TotalVolunteers(b)
  {
    if a != [] {
      SameVolunteers(a[1..], b[1..]);
    }
  }

  lemma {:induction false} VolunteersAppend(a: seq<Organization>, b: seq<Organization>)
    ensures TotalVolunteers(a + b) == TotalVolunteers(a) + TotalVolunteers(b)
  {
    if a == [] {
      assert a + b == b;
    } else {
      assert (a + b)[0] == a[0];
      assert (a + b)[1..] == a[1..] + b;
      VolunteersAppend(a[1..], b);
    }
  }

  /** Approving, rejecting and editing never change the volunteer total; registering adds none. */
  lemma VolunteersKept(orgs: seq<Organization>, id: string, status: OrgStatus, form: Form, now: int)
    ensures TotalVolunteers(WithStatus(orgs, id, status)) == TotalVolunteers(orgs)
    ensures TotalVolunteers(WithForm(orgs, id, form)) == TotalVolunteers(orgs)
    ensures TotalVolunteers(orgs + [NewOrganization(form, now)]) == TotalVolunteers(orgs)
  {
    SameVolunteers(WithStatus(orgs, id, status), orgs);
    SameVolunteers(WithForm(orgs, id, form), orgs);
    VolunteersAppend(orgs, [NewOrganization(form, now)]);
    assert TotalVolunteers([NewOrganization(form, now)]) == 0 by {
      assert [NewOrganization(form, now)][1..] == [];
    }
  }

  /** Registering adds one pending organization and no active one. */
  lemma RegisterCounts(orgs: seq<Organization>, form: Form, now: int)
    ensures StatusCount(orgs + [NewOrganization(form, now)], Pending) == StatusCount(orgs, Pending) + 1
    ensures StatusCount(orgs + [NewOrganization(form, now)], Active) == StatusCount(orgs, Active)
  {
    CountAppend(orgs, [NewOrganization(form, now)], HasStatus(Pending));
    CountAppend(orgs, [NewOrganization(form, now)], HasStatus(Active));
  }

  /** With no organization of the id, setting a status changes nothing. */
  lemma {:induction false} WithStatusAbsent(orgs: seq<Organization>, id: string, status: OrgStatus)
    requires Count(orgs, HasId(id)) == 0
    ensures WithStatus(orgs, id, status) == orgs
  {
    if orgs != [] {
      WithStatusAbsent(orgs[1..], id, status);
    }
  }

  /** Approving or rejecting the one pending organization of an id moves it from the pending count
      to the count of its new status. */
  lemma {:induction false} StatusMovesOne(orgs: seq<Organization>, id: string, status: OrgStatus)
    requires status != Pending
    requires Count(orgs, HasId(id)) == 1
    requires forall org :: org in orgs && org.id == id ==> org.status == Pending
    ensures StatusCount(WithStatus(orgs, id, status), status) == StatusCount(orgs, status) + 1
    ensures StatusCount(WithStatus(orgs, id, status), Pending) == StatusCount(orgs, Pending) - 1
  {
    var rest := orgs[1..];
    assert orgs == [orgs[0]] + rest;
    CountCons(orgs[0], rest, HasId(id));
    if orgs[0].id == id {
      StatusMovesHead(orgs, id, status);
    } else {
      assert forall org :: org in rest ==> org in orgs;
      StatusMovesOne(rest, id, status);
      var r := WithStatus(orgs, id, status);
      assert r == [orgs[0]] + WithStatus(rest, id, status);
      CountCons(orgs[0], rest, HasStatus(status));
      CountCons(orgs[0], rest, HasStatus(Pending));
      CountCons(orgs[0], WithStatus(rest, id, status), HasStatus(status));
      CountCons(orgs[0], WithStatus(rest, id, status), HasStatus(Pending));
    }
  }

  /** The case where the organization of the id comes first. */
  lemma StatusMovesHead(orgs: seq<Organization>, id: string, status: OrgStatus)
    requires status != Pending
    requires orgs != [] && orgs[0].id == id && orgs[0].status == Pending
    requires Count(orgs[1..], HasId(id)) == 0
    ensures StatusCount(WithStatus(orgs, id, status), status) == StatusCount(orgs, status) + 1
    ensures StatusCount(WithStatus(orgs, id, status), Pending) == StatusCount(orgs, Pending) - 1
  {
    var rest := orgs[1..];
    WithStatusAbsent(rest, id, status);
    var r := WithStatus(orgs, id, status);
    assert r == [orgs[0].(status := status)] + rest;
    assert orgs == [orgs[0]] + rest;
    CountCons(orgs[0], rest, HasStatus(status));
    CountCons(orgs[0], rest, HasStatus(Pending));
    CountCons(orgs[0].(status := status), rest, HasStatus(status));
    CountCons(orgs[0].(status := status), rest, HasStatus(Pending));
  }

  lemma CountCons<T>(x: T, s: seq<T>, p: T -> bool)
    ensures Count([x] + s, p) == (if p(x) then 1 else 0) + Count(s, p)
  {
    assert ([x] + s)[1..] == s;
  }
}
