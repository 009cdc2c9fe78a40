/**
 * The subscriber dashboard: three group lists (subscribed, unsubscribed,
 * pending), a tab selector choosing which one is shown, a search term
 * filtering the lists and the notification panel, and the two transitions
 * "send subscription request" and "test approval".
 */
module SubscriberDashboard {
  import opened Wrappers
  import opened Text
  import opened Seqs

  datatype GroupStatus = Available | Pending | Active | Inactive

  /** A calendar day; the text form `YYYY-MM-DD` is not modelled. */
  datatype CalendarDate = CalendarDate(year: int, month: int, day: int)

  /** A report group row. `subscribedOn` is `null` for groups not subscribed to. */
  datatype Group = Group(
    id: int,
    addgroup: string,
    description: string,
    subscribedOn: Option<CalendarDate>,
    status: GroupStatus,
    url: string)

  datatype Note = Note(report: string, message: string)

  /** The value of `activeTable`: exactly one of the three tables is shown. */
  datatype Tab = SubscribedTab | UnsubscribedTab | PendingTab

  datatype Template = Template(name: string, desc: string)

  const Templates: seq<Template> := [
    Template("Ops_Reports", "Operations and performance reports"),
    Template("Finance_Reports", "Financial insights and expense summaries"),
    Template("Compliance_Data", "Compliance and audit data access"),
    Template("HR_Metrics", "HR workforce planning and attrition metrics"),
    Template("IT_Security", "IT infrastructure uptime and incident logs"),
    Template("Treasury_Assets", "Monthly treasury management and liquidity forecasts"),
    Template("Retail_Sales", "Retail banking customer acquisition and churn reports"),
    Template("Wholesale_Credit", "Global commodity market analysis and hedging strategy papers")
  ]

  const InitialNotifications: seq<Note> := [
    Note("Ops_Reports", "New operations report uploaded on 2025-10-09"),
    Note("Finance_Reports", "Monthly finance report summary available"),
    Note("Compliance_Data", "Compliance audit access restored")
  ]

  /** `generateGroupData`: `count` groups with consecutive ids from `startId`. */
  method GenerateGroupData(isSubscribed: bool, startId: nat, count: nat) returns (groups: seq<Group>)
    ensures |groups| == count
    ensures forall k :: 0 <= k < count ==> groups[k].id == startId + k
    ensures forall k :: 0 <= k < count ==>
      groups[k].status == (if !isSubscribed then Available else if k % 4 == 3 then Inactive else Active)
    ensures forall k :: 0 <= k < count ==>
      groups[k].addgroup == Templates[(startId + k) % 8].name + "_G" + NatToDecimal(startId + k)
    ensures forall k :: 0 <= k < count ==>
      groups[k].subscribedOn ==
        (if isSubscribed then Some(CalendarDate(2024, (startId + k) % 12 + 1, (startId + k) % 28 + 1)) else None)
  {
    groups := [];
    for i := 0 to count
      invariant |groups| == i
      invariant forall k :: 0 <= k < i ==> GeneratedAt(groups[k], isSubscribed, startId, k)
    {
      var id := startId + i;
      var template := Templates[id % 8];
      var statuses := if isSubscribed then [Active, Active, Active, Inactive] else [Available];
      var group := Group(
        id,
        template.name + "_G" + NatToDecimal(id),
        if isSubscribed then "[Batch " + NatToDecimal(id) + "] " + template.desc else template.desc,
        if isSubscribed then Some(CalendarDate(2024, id % 12 + 1, id % 28 + 1)) else None,
        if isSubscribed then statuses[i % 4] else statuses[0],
        "/reports/unsubscribed_sample_" + NatToDecimal(id) + ".pdf");
      assert GeneratedAt(group, isSubscribed, startId, i);
      groups := groups + [group];
    }
  }

  /** The facts the generator's contract states about the group at position `k`. */
  ghost predicate GeneratedAt(g: Group, isSubscribed: bool, startId: nat, k: nat) {
    && g.id == startId + k
    && g.status == (if !isSubscribed then Available else if k % 4 == 3 then Inactive else Active)
    && g.addgroup == Templates[(startId + k) % 8].name + "_G" + NatToDecimal(startId + k)
    && g.subscribedOn ==
      (if isSubscribed then Some(CalendarDate(2024, (startId + k) % 12 + 1, (startId + k) % 28 + 1)) else None)
  }

  /** A group matches the search term when its name or its description contains it, ignoring case. */
  predicate GroupMatches(g: Group, term: string) {
    IncludesIgnoreCase(g.addgroup, term) || IncludesIgnoreCase(g.description, term)
  }

  predicate NoteMatches(n: Note, term: string) {
    IncludesIgnoreCase(n.report, term) || IncludesIgnoreCase(n.message, term)
  }

  /** `filterGroups`: the rows of one table that the search term lets through. */
  function FilterGroups(groups: seq<Group>, term: string): (r: seq<Group>)
    ensures term == "" ==> r == groups
    ensures IsSubsequence(r, groups)
    ensures forall g :: g in r <==> g in groups && GroupMatches(g, term)
    ensures forall g :: multiset(r)[g] == if GroupMatches(g, term) then multiset(groups)[g] else 0
  {
    SubsequenceReflexive(groups);
    if term == "" then groups else Filter(groups, (g: Group) => GroupMatches(g, term))
  }

  /** The shortcut for the empty term agrees with filtering by it: every group matches "". */
  lemma EmptyTermMatchesEveryGroup(groups: seq<Group>)
    ensures Filter(groups, (g: Group) => GroupMatches(g, "")) == groups
  {
    FilterKeepsAll(groups, (g: Group) => GroupMatches(g, ""));
  }

  /** `filteredNotifications`: the notes whose report or message contains the term. */
  function FilterNotifications(notes: seq<Note>, term: string): (r: seq<Note>)
    ensures term == "" ==> r == notes
    ensures IsSubsequence(r, notes)
    ensures forall n :: n in r <==> n in notes && NoteMatches(n, term)
    ensures forall n :: multiset(r)[n] == if NoteMatches(n, term) then multiset(notes)[n] else 0
  {
    SubsequenceReflexive(notes);
    if term == "" then notes else Filter(notes, (n: Note) => NoteMatches(n, term))
  }

  /** `prev.filter(g => g.id !== id)`: the list with every entry carrying `id` removed. */
  function Without(groups: seq<Group>, id: int): (r: seq<Group>)
    ensures IsSubsequence(r, groups)
    ensures forall g :: g in r <==> g in groups && g.id != id
    ensures forall g :: multiset(r)[g] == if g.id != id then multiset(groups)[g] else 0
  {
    Filter(groups, (g: Group) => g.id != id)
  }

  /** Removing an id that is not there leaves the list as it was. */
  lemma WithoutAbsent(groups: seq<Group>, id: int)
    requires !HasId(groups, id)
    ensures Without(groups, id) == groups
  {
    FilterKeepsAll(groups, (g: Group) => g.id != id);
  }

  /** Removing an id held by exactly one entry shortens the list by one. */
  lemma WithoutUnique(groups: seq<Group>, k: int)
    requires 0 <= k < |groups| && UniqueIds(groups)
    ensures |Without(groups, groups[k].id)| == |groups| - 1
  {
    var id := groups[k].id;
    FilterDropsOne(groups, (g: Group) => g.id != id, k);
  }

  predicate HasId(groups: seq<Group>, id: int) {
    exists i :: 0 <= i < |groups| && groups[i].id == id
  }

  ghost predicate UniqueIds(groups: seq<Group>) {
    forall i, j :: 0 <= i < |groups| && 0 <= j < |groups| && groups[i].id == groups[j].id ==> i == j
  }

  /** The copy of a group that a subscription request puts into the pending list. */
  function Requested(g: Group): Group {
    g.(status := Pending)
  }

  /** The copy of a group that an approval puts into the subscribed list. */
  function Approved(g: Group, today: CalendarDate): Group {
    g.(status := Active, subscribedOn := Some(today))
  }

  /**
   * With ids unique across the three lists, requesting a subscription for an
   * unsubscribed group and then approving the pending copy keeps the number
   * of groups, and moves the id from the unsubscribed list to the subscribed
   * one without leaving it in the pending list.
   */
  lemma RequestThenApprove(subscribed: seq<Group>, unsubscribed: seq<Group>, pending: seq<Group>,
                           g: Group, today: CalendarDate)
    requires UniqueIds(subscribed + unsubscribed + pending)
    requires g in unsubscribed
    ensures var unsubscribed1 := Without(unsubscribed, g.id);
            var pending1 := [Requested(g)] + pending;
            var pending2 := Without(pending1, Requested(g).id);
            var subscribed2 := [Approved(Requested(g), today)] + subscribed;
            && |subscribed2| + |unsubscribed1| + |pending2| == |subscribed| + |unsubscribed| + |pending|
            && HasId(subscribed2, g.id)
            && !HasId(unsubscribed1, g.id)
            && !HasId(pending2, g.id)
            && pending2 == pending
  {
    var k :| 0 <= k < |unsubscribed| && unsubscribed[k] == g;
    UniqueAcrossLists(subscribed, unsubscribed, pending, k);
    WithoutUnique(unsubscribed, k);
    var pending1 := [Requested(g)] + pending;
    assert pending1[1..] == pending;
    WithoutAbsent(pending, g.id);
    assert ([Approved(Requested(g), today)] + subscribed)[0].id == g.id;
  }

  /** Ids unique across three lists are unique within the middle one, and its ids are absent from the last. */
  lemma UniqueAcrossLists(a: seq<Group>, b: seq<Group>, c: seq<Group>, k: int)
    requires UniqueIds(a + b + c) && 0 <= k < |b|
    ensures UniqueIds(b)
    ensures !HasId(c, b[k].id)
  {
    var all := a + b + c;
    assert all[|a| + k] == b[k];
    forall i, j | 0 <= i < |b| && 0 <= j < |b| && b[i].id == b[j].id
      ensures i == j
    {
      assert all[|a| + i] == b[i] && all[|a| + j] == b[j];
    }
    forall i | 0 <= i < |c|
      ensures c[i].id != b[k].id
    {
      assert all[|a| + |b| + i] == c[i];
    }
  }

  /** The dashboard's component state; each method is one of its handlers. */
  class Dashboard {
    var searchTerm: string
    var activeTable: Tab
    var subscribedGroups: seq<Group>
    var unsubscribedGroups: seq<Group>
    var pendingGroups: seq<Group>
    const notifications: seq<Note>

    /** Each list holds rows in the statuses its table is for. */
    ghost predicate Valid()
      reads this
    {
      && (forall g :: g in unsubscribedGroups ==> g.status == Available)
      && (forall g :: g in pendingGroups ==> g.status == Pending)
      && (forall g :: g in subscribedGroups ==> g.status == Active || g.status == Inactive)
    }

    /** The state on mount: 15 subscribed groups (ids 1-15), 10 available ones (ids 16-25), none pending. */
    constructor ()
      ensures Valid()
      ensures searchTerm == "" && activeTable == SubscribedTab
      ensures |subscribedGroups| == 15 && |unsubscribedGroups| == 10 && pendingGroups == []
      ensures forall k :: 0 <= k < 15 ==> subscribedGroups[k].id == k + 1
      ensures forall k :: 0 <= k < 10 ==> unsubscribedGroups[k].id == 16 + k
      ensures UniqueIds(subscribedGroups + unsubscribedGroups + pendingGroups)
      ensures notifications == InitialNotifications
    {
      var subscribed := GenerateGroupData(true, 1, 15);
      var unsubscribed := GenerateGroupData(false, 16, 10);
      searchTerm := "";
      activeTable := SubscribedTab;
      subscribedGroups := subscribed;
      unsubscribedGroups := unsubscribed;
      pendingGroups := [];
      notifications := InitialNotifications;
      new;
      var all := subscribedGroups + unsubscribedGroups + pendingGroups;
      assert forall i :: 0 <= i < |all| ==> all[i].id == i + 1;
    }

    method SetSearchTerm(term: string)
      requires Valid()
      modifies this
      ensures Valid()
      ensures searchTerm == term && activeTable == old(activeTable)
      ensures subscribedGroups == old(subscribedGroups)
      ensures unsubscribedGroups == old(unsubscribedGroups)
      ensures pendingGroups == old(pendingGroups)
    {
      searchTerm := term;
    }

    /** A tab button: only the active tab changes, no list does. */
    method SelectTab(tab: Tab)
      requires Valid()
      modifies this
      ensures Valid()
      ensures activeTable == tab && searchTerm == old(searchTerm)
      ensures subscribedGroups == old(subscribedGroups)
      ensures unsubscribedGroups == old(unsubscribedGroups)
      ensures pendingGroups == old(pendingGroups)
    {
      activeTable := tab;
    }

    /** `handleSubscriptionRequest`: the group leaves the available list and heads the pending one. */
    method RequestSubscription(group: Group)
      requires Valid()
      modifies this
      ensures Valid()
      ensures unsubscribedGroups == Without(old(unsubscribedGroups), group.id)
      ensures pendingGroups == [Requested(group)] + old(pendingGroups)
      ensures subscribedGroups == old(subscribedGroups)
      ensures activeTable == PendingTab && searchTerm == old(searchTerm)
    {
      unsubscribedGroups := Without(unsubscribedGroups, group.id);
      pendingGroups := [Requested(group)] + pendingGroups;
      activeTable := PendingTab;
    }

    /** `simulateAdminApproval`: the group leaves the pending list and heads the subscribed one. */
    method SimulateAdminApproval(group: Group, today: CalendarDate)
      requires Valid()
      modifies this
      ensures Valid()
      ensures pendingGroups == Without(old(pendingGroups), group.id)
      ensures subscribedGroups == [Approved(group, today)] + old(subscribedGroups)
      ensures unsubscribedGroups == old(unsubscribedGroups)
      ensures activeTable == old(activeTable) && searchTerm == old(searchTerm)
    {
      pendingGroups := Without(pendingGroups, group.id);
      subscribedGroups := [Approved(group, today)] + subscribedGroups;
    }
  }
}
