/** The `leads` table and the admin-facing lead handlers: public submission,
    status/notes update, and the per-status counts behind the stats view. */
module Leads {
  import opened Js
  import opened Db
  import opened LeadValidation

  datatype Lead = Lead(
    id: nat,
    name: string,
    phone: string,
    email: string,
    ageGroup: Option<string>,
    hasExistingSip: Option<string>,
    currentSipAmount: Option<string>,
    desiredInvestmentAmount: Option<string>,
    objective: Option<string>,
    financialGoal: Option<string>,
    goalTimeline: Option<string>,
    city: string,
    status: Option<string>,
    notes: Option<string>,
    createdAt: Time,
    updatedAt: Time)

  /** The body of a lead submission. */
  datatype LeadForm = LeadForm(
    name: Field,
    phone: Field,
    email: Field,
    ageGroup: Field,
    hasExistingSip: Field,
    currentSipAmount: Field,
    desiredInvestmentAmount: Field,
    objective: Field,
    financialGoal: Field,
    goalTimeline: Field,
    city: Field)

  const DefaultCity := "Pune"
  const NewStatus := "new"

  /** An optional column holds the submitted value when it is truthy, and
      null otherwise. */
  predicate StoredOrNull(f: Field, column: Option<string>) {
    if Truthy(f) then column == f else column == None
  }

  /** The row the insert writes for an accepted form. */
  function NewLead(id: nat, form: LeadForm, now: Time): (l: Lead)
    requires ValidateLead(form.name, form.phone, form.email) == None
    ensures l.id == id && l.status == Some(NewStatus) && l.notes == None
    ensures l.name == form.name.value && l.phone == form.phone.value && l.email == form.email.value
    ensures l.city == (if Truthy(form.city) then form.city.value else DefaultCity)
    ensures StoredOrNull(form.ageGroup, l.ageGroup) && StoredOrNull(form.hasExistingSip, l.hasExistingSip)
    ensures StoredOrNull(form.currentSipAmount, l.currentSipAmount)
    ensures StoredOrNull(form.desiredInvestmentAmount, l.desiredInvestmentAmount)
    ensures StoredOrNull(form.objective, l.objective) && StoredOrNull(form.financialGoal, l.financialGoal)
    ensures StoredOrNull(form.goalTimeline, l.goalTimeline)
    ensures l.createdAt == now && l.updatedAt == now
  {
    Lead(id, form.name.value, form.phone.value, form.email.value,
         OrNull(form.ageGroup), OrNull(form.hasExistingSip), OrNull(form.currentSipAmount),
         OrNull(form.desiredInvestmentAmount), OrNull(form.objective),
         OrNull(form.financialGoal), OrNull(form.goalTimeline),
         OrElse(form.city, DefaultCity), Some(NewStatus), None, now, now)
  }

  /** A stored lead the duplicate query `phone = ? OR email = ?` selects. */
  predicate Clashes(ci: bool, l: Lead, phone: string, email: string) {
    Key(ci, l.phone) == Key(ci, phone) || Key(ci, l.email) == Key(ci, email)
  }

  ghost predicate HasClash(ci: bool, rows: seq<Lead>, phone: string, email: string) {
    exists i :: 0 <= i < |rows| && Clashes(ci, rows[i], phone, email)
  }

  /** The table invariant: no two leads share a phone or an email. */
  ghost predicate UniqueContacts(ci: bool, rows: seq<Lead>) {
    forall i, j :: 0 <= i < j < |rows| ==> !Clashes(ci, rows[j], rows[i].phone, rows[i].email)
  }

  /** Ids are assigned in increasing order, all below the next id. */
  ghost predicate IdsBelow(rows: seq<Lead>, next: nat) {
    (forall i :: 0 <= i < |rows| ==> rows[i].id < next) &&
    (forall i, j :: 0 <= i < j < |rows| ==> rows[i].id < rows[j].id)
  }

  /** The duplicate query: is there a stored lead with this phone or this email? */
  method FindClash(ci: bool, rows: seq<Lead>, phone: string, email: string) returns (found: bool)
    ensures found <==> HasClash(ci, rows, phone, email)
  {
    found := false;
    var i := 0;
    while i < |rows|
      invariant 0 <= i <= |rows|
      invariant found <==> exists k :: 0 <= k < i && Clashes(ci, rows[k], phone, email)
    {
      if Clashes(ci, rows[i], phone, email) {
        found := true;
      }
      i := i + 1;
    }
  }

  datatype SubmitOutcome = Invalid(error: LeadError) | Duplicate | Created(leadId: nat) {
    function StatusCode(): nat {
      if Created? then 200 else 400
    }
  }

  /** The lead status column as a JavaScript object key: `null` becomes "null". */
  function StatusKey(status: Option<string>): string {
    if status.Some? then status.value else "null"
  }

  /** The row `UPDATE leads SET status = ?, notes = ?, updated_at = NOW()
      WHERE id = ?` leaves in place of each lead. */
  function UpdatedLeads(rows: seq<Lead>, id: nat, status: Field, notes: Field, now: Time): (r: seq<Lead>)
    ensures |r| == |rows|
  {
    seq(|rows|, i requires 0 <= i < |rows| =>
      if rows[i].id == id then rows[i].(status := status, notes := notes, updatedAt := now)
      else rows[i])
  }

  /** An update changes only the status, notes and update time of the lead
      with that id, and changes nothing when no lead has it. */
  lemma UpdateTouchesOnlyTarget(rows: seq<Lead>, id: nat, status: Field, notes: Field, now: Time)
    ensures var r := UpdatedLeads(rows, id, status, notes, now);
      forall i :: 0 <= i < |rows| ==>
        (rows[i].id != id ==> r[i] == rows[i]) &&
        (rows[i].id == id ==> r[i].status == status && r[i].notes == notes &&
                              r[i].updatedAt == now &&
                              r[i] == rows[i].(status := r[i].status, notes := r[i].notes,
                                                updatedAt := r[i].updatedAt))
    ensures (forall i :: 0 <= i < |rows| ==> rows[i].id != id) ==>
      UpdatedLeads(rows, id, status, notes, now) == rows
  {
  }

  lemma UpdateKeepsContacts(rows: seq<Lead>, id: nat, status: Field, notes: Field, now: Time)
    ensures var r := UpdatedLeads(rows, id, status, notes, now);
      forall i :: 0 <= i < |rows| ==>
        r[i].id == rows[i].id && r[i].phone == rows[i].phone && r[i].email == rows[i].email
  {
  }

  /** The UPDATE keeps the table invariant: contacts stay unique and ids
      stay increasing and below the next id. */
  lemma UpdateKeepsTable(ci: bool, rows: seq<Lead>, id: nat, status: Field, notes: Field,
                         now: Time, next: nat)
    requires UniqueContacts(ci, rows) && IdsBelow(rows, next)
    ensures var r := UpdatedLeads(rows, id, status, notes, now);
      UniqueContacts(ci, r) && IdsBelow(r, next)
  {
    UpdateKeepsContacts(rows, id, status, notes, now);
  }

  class LeadStore {
    /** Whether the table's collation compares text case-insensitively. */
    const ci: bool
    var leads: seq<Lead>
    var nextId: nat

    ghost predicate Valid()
      reads this
    {
      UniqueContacts(ci, leads) && IdsBelow(leads, nextId)
    }

    constructor (ci: bool)
      ensures Valid() && this.ci == ci && leads == [] && nextId == 1
    {
      this.ci := ci;
      leads := [];
      nextId := 1;
    }

    /** `POST /api/leads`: validate, refuse a duplicate phone or email, else
        append one lead with the defaults. */
    method Submit(form: LeadForm, now: Time) returns (r: SubmitOutcome)
      requires Valid()
      modifies this
      ensures Valid()
      ensures var v := ValidateLead(form.name, form.phone, form.email);
        (v.Some? <==> r.Invalid?) && (v.Some? ==> r == Invalid(v.value))
      ensures r.Duplicate? <==>
        ValidateLead(form.name, form.phone, form.email) == None &&
        HasClash(ci, old(leads), form.phone.value, form.email.value)
      ensures !r.Created? ==> leads == old(leads) && nextId == old(nextId)
      ensures r.Created? ==>
        r.leadId == old(nextId) && nextId == old(nextId) + 1 &&
        leads == old(leads) + [NewLead(old(nextId), form, now)]
    {
      var v := ValidateLead(form.name, form.phone, form.email);
      if v.Some? {
        return Invalid(v.value);
      }
      var clash := FindClash(ci, leads, form.phone.value, form.email.value);
      if clash {
        return Duplicate;
      }
      var lead := NewLead(nextId, form, now);
      leads := leads + [lead];
      nextId := nextId + 1;
      r := Created(lead.id);
    }

    /** `PUT /api/leads/:id`: set status and notes of the lead with that id;
        `false` (404) when there is none. */
    method Update(id: nat, status: Field, notes: Field, now: Time) returns (found: bool)
      requires Valid()
      modifies this
      ensures Valid()
      ensures found <==> exists i :: 0 <= i < |old(leads)| && old(leads)[i].id == id
      ensures leads == UpdatedLeads(old(leads), id, status, notes, now)
      ensures nextId == old(nextId)
    {
      found := false;
      var i := 0;
      ghost var before := leads;
      ghost var after := UpdatedLeads(before, id, status, notes, now);
      while i < |leads|
        invariant 0 <= i <= |leads| == |before|
        invariant found <==> exists k :: 0 <= k < i && before[k].id == id
        invariant forall k :: 0 <= k < i ==> leads[k] == after[k]
        invariant forall k :: i <= k < |leads| ==> leads[k] == before[k]
        invariant nextId == old(nextId)
      {
        if leads[i].id == id {
          leads := leads[i := leads[i].(status := status, notes := notes, updatedAt := now)];
          found := true;
        }
        i := i + 1;
      }
      assert leads == after;
      UpdateKeepsTable(ci, before, id, status, notes, now, nextId);
    }
  }

  /** Submitting twice with the same phone: the second is refused as a
      duplicate whatever its email. */
  method SubmitTwiceSamePhone(store: LeadStore, a: LeadForm, b: LeadForm, now: Time)
    returns (first: SubmitOutcome, second: SubmitOutcome)
    requires store.Valid() && store.leads == []
    requires ValidateLead(a.name, a.phone, a.email) == None
    requires ValidateLead(b.name, b.phone, b.email) == None
    requires b.phone == a.phone
    modifies store
    ensures first.Created? && second.Duplicate?
    ensures |store.leads| == 1
  {
    first := store.Submit(a, now);
    assert Clashes(store.ci, store.leads[0], b.phone.value, b.email.value);
    second := store.Submit(b, now);
  }

  // ---------------------------------------------------------------------
  // Stats: `SELECT status, COUNT(*) FROM leads GROUP BY status`, folded into
  // an object that starts from five zero buckets.

  /** One row of the GROUP BY result. */
  datatype Group = Group(status: Option<string>, count: nat)

  const Buckets: set<string> := {"total", "new", "contacted", "converted", "rejected"}

  function InitialStats(): map<string, int> {
    map["total" := 0, "new" := 0, "contacted" := 0, "converted" := 0, "rejected" := 0]
  }

  /** One step of the forEach: `stats.total += r.count; stats[r.status] = r.count`. */
  function StatsStep(stats: map<string, int>, g: Group): map<string, int>
    requires "total" in stats
  {
    var added := stats["total" := stats["total"] + g.count];
    added[StatusKey(g.status) := g.count]
  }

  /** The stats object after folding the groups in order. */
  function StatsOf(groups: seq<Group>): (stats: map<string, int>)
    ensures forall b :: b in Buckets ==> b in stats
    ensures forall i :: 0 <= i < |groups| ==> StatusKey(groups[i].status) in stats
  {
    if groups == [] then InitialStats()
    else StatsStep(StatsOf(groups[..|groups| - 1]), groups[|groups| - 1])
  }

  function SumCounts(groups: seq<Group>): nat {
    if groups == [] then 0 else SumCounts(groups[..|groups| - 1]) + groups[|groups| - 1].count
  }

  /** The forEach over the query result, on a mutable stats object. */
  method ComputeStats(groups: seq<Group>) returns (stats: map<string, int>)
    ensures stats == StatsOf(groups)
  {
    stats := InitialStats();
    var i := 0;
    while i < |groups|
      invariant 0 <= i <= |groups|
      invariant stats == StatsOf(groups[..i])
    {
      assert groups[..i + 1][..i] == groups[..i];
      stats := stats["total" := stats["total"] + groups[i].count];
      stats := stats[StatusKey(groups[i].status) := groups[i].count];
      i := i + 1;
    }
    assert groups[..i] == groups;
  }

  /** `total` is the sum of the group counts, unless a group's own status is
      "total" (then that group's assignment overwrote the running sum). */
  lemma {:induction false} StatsTotal(groups: seq<Group>)
    requires forall i :: 0 <= i < |groups| ==> StatusKey(groups[i].status) != "total"
    ensures StatsOf(groups)["total"] == SumCounts(groups)
  {
    if groups != [] {
      StatsTotal(groups[..|groups| - 1]);
    }
  }

  /** As written, a group whose status is "total" (any string can be stored
      by the status update) overwrites the running sum: here two leads are
      grouped, yet `total` reports 1. */
  lemma StatsTotalOverwritten()
    ensures var groups := [Group(Some("new"), 1), Group(Some("total"), 1)];
      SumCounts(groups) == 2 && StatsOf(groups)["total"] == 1
  {
  }

  /** The stats object with `total` written once after the loop, so that no
      status key can replace the count of all leads. */
  function CorrectedStats(groups: seq<Group>): (stats: map<string, int>)
    ensures forall b :: b in Buckets ==> b in stats
    ensures forall k :: k != "total" && k in StatsOf(groups) ==> k in stats && stats[k] == StatsOf(groups)[k]
  {
    StatsOf(groups)["total" := SumCounts(groups)]
  }

  /** With the corrected fold, `total` is the number of leads for every
      GROUP BY result, whatever statuses the table holds. */
  lemma {:induction false} CorrectedStatsTotalIsTableSize(ci: bool, groups: seq<Group>, rows: seq<Lead>)
    requires IsStatusGrouping(ci, groups, rows)
    ensures CorrectedStats(groups)["total"] == |rows|
  {
    SumOfGroupCounts(ci, groups, rows);
  }

  /** A status key holds the count of the last group with that key; a
      default bucket no group names stays 0. */
  lemma {:induction false} StatsBucket(groups: seq<Group>, k: string)
    requires k != "total"
    ensures var last := LastWithKey(groups, k);
      last < |groups| ==> StatsOf(groups)[k] == groups[last].count
    ensures LastWithKey(groups, k) == |groups| && k in Buckets ==> StatsOf(groups)[k] == 0
  {
    if groups != [] {
      var init := groups[..|groups| - 1];
      StatsBucket(init, k);
      var g := groups[|groups| - 1];
      var prev := StatsOf(init);
      assert StatsOf(groups) == StatsStep(prev, g);
      if StatusKey(g.status) != k {
        var li := LastWithKey(init, k);
        if li < |init| {
          assert LastWithKey(groups, k) == li;
          assert groups[li] == init[li];
        } else {
          assert LastWithKey(groups, k) == |groups|;
        }
      }
    }
  }

  /** Index of the last group whose key is `k` (|groups| when there is none). */
  function LastWithKey(groups: seq<Group>, k: string): (i: nat)
    ensures i <= |groups|
    ensures i < |groups| ==>
      StatusKey(groups[i].status) == k && forall j :: i < j < |groups| ==> StatusKey(groups[j].status) != k
    ensures i == |groups| ==> forall j :: 0 <= j < |groups| ==> StatusKey(groups[j].status) != k
  {
    if groups == [] then 0
    else if StatusKey(groups[|groups| - 1].status) == k then |groups| - 1
    else
      var init := groups[..|groups| - 1];
      var i := LastWithKey(init, k);
      assert forall j :: 0 <= j < |init| ==> init[j] == groups[j];
      if i == |init| then |groups| else i
  }

  /** The value GROUP BY compares a status by: null apart, and a string
      under the column's collation, so "New" and "new" fall in one group
      when the collation ignores case. */
  function GroupKey(ci: bool, s: Option<string>): Option<string> {
    if s.Some? then Some(Key(ci, s.value)) else None
  }

  /** The number of leads whose status groups with `s`. */
  function CountStatus(ci: bool, rows: seq<Lead>, s: Option<string>): nat {
    if rows == [] then 0
    else
      var last := if GroupKey(ci, rows[|rows| - 1].status) == GroupKey(ci, s) then 1 else 0;
      CountStatus(ci, rows[..|rows| - 1], s) + last
  }

  /** `groups` is what GROUP BY status returns for `rows` under the
      collation `ci`: one group per distinct status key present, labelled
      with one of its statuses, with its count, in some order. */
  ghost predicate IsStatusGrouping(ci: bool, groups: seq<Group>, rows: seq<Lead>) {
    (forall i, j :: 0 <= i < j < |groups| ==> GroupKey(ci, groups[i].status) != GroupKey(ci, groups[j].status)) &&
    (forall i :: 0 <= i < |groups| ==> groups[i].count == CountStatus(ci, rows, groups[i].status)) &&
    (forall r :: 0 <= r < |rows| ==>
      exists i :: 0 <= i < |groups| && GroupKey(ci, groups[i].status) == GroupKey(ci, rows[r].status))
  }

  /** Over the GROUP BY result of the table, `total` is the number of leads. */
  lemma StatsTotalIsTableSize(ci: bool, groups: seq<Group>, rows: seq<Lead>)
    requires IsStatusGrouping(ci, groups, rows)
    requires forall i :: 0 <= i < |groups| ==> StatusKey(groups[i].status) != "total"
    ensures StatsOf(groups)["total"] == |rows|
  {
    StatsTotal(groups);
    SumOfGroupCounts(ci, groups, rows);
  }

  /** The summed counts of a grouping cover every lead exactly once. */
  lemma {:induction false} SumOfGroupCounts(ci: bool, groups: seq<Group>, rows: seq<Lead>)
    requires IsStatusGrouping(ci, groups, rows)
    ensures SumCounts(groups) == |rows|
    decreases |rows|
  {
    if rows == [] {
      SumZero(ci, groups);
    } else {
      var init := rows[..|rows| - 1];
      var last := rows[|rows| - 1];
      var smaller := seq(|groups|, i requires 0 <= i < |groups| =>
        Group(groups[i].status, CountStatus(ci, init, groups[i].status)));
      forall r | 0 <= r < |init|
        ensures exists i :: 0 <= i < |smaller| && GroupKey(ci, smaller[i].status) == GroupKey(ci, init[r].status)
      {
        assert init[r] == rows[r];
        var i :| 0 <= i < |groups| && GroupKey(ci, groups[i].status) == GroupKey(ci, rows[r].status);
        assert smaller[i].status == groups[i].status;
      }
      SumOfGroupCounts(ci, smaller, init);
      var k :| 0 <= k < |groups| && GroupKey(ci, groups[k].status) == GroupKey(ci, last.status);
      SumDropsOne(groups, smaller, k);
    }
  }

  lemma {:induction false} SumZero(ci: bool, groups: seq<Group>)
    requires forall i :: 0 <= i < |groups| ==> groups[i].count == CountStatus(ci, [], groups[i].status)
    ensures SumCounts(groups) == 0
  {
    if groups != [] {
      SumZero(ci, groups[..|groups| - 1]);
    }
  }

  /** Two groupings that agree except that group `k` has one more lead. */
  lemma {:induction false} SumDropsOne(groups: seq<Group>, smaller: seq<Group>, k: nat)
    requires |smaller| == |groups| && k < |groups|
    requires groups[k].count == smaller[k].count + 1
    requires forall i :: 0 <= i < |groups| && i != k ==> groups[i].count == smaller[i].count
    ensures SumCounts(groups) == SumCounts(smaller) + 1
  {
    var n := |groups| - 1;
    if k == n {
      SumSame(groups[..n], smaller[..n]);
    } else {
      SumDropsOne(groups[..n], smaller[..n], k);
    }
  }

  lemma {:induction false} SumSame(a: seq<Group>, b: seq<Group>)
    requires |a| == |b|
    requires forall i :: 0 <= i < |a| ==> a[i].count == b[i].count
    ensures SumCounts(a) == SumCounts(b)
  {
    if a != [] {
      SumSame(a[..|a| - 1], b[..|b| - 1]);
    }
  }
}
