/**
 * The admin screen: one list of subscription requests, a search over three
 * of their fields, the Pending and Approved tables drawn from the search
 * result, and the approve / deny / revoke buttons, all of which go through
 * one handler `handleAction(id, action)`.
 */
module AdminPage {
  import opened Text
  import opened Seqs

  datatype RequestStatus = Pending | Approved | Denied

  datatype Request = Request(
    id: int,
    userName: string,
    adGroup: string,
    folder: string,
    reportName: string,
    dateRequested: string,
    status: RequestStatus)

  const Users: seq<string> := ["Alice", "Bob", "Charlie", "Dana", "Eve"]
  const Groups: seq<string> := ["Finance_Reports", "Ops_Reports", "HR_Metrics", "Compliance_Data"]
  const Folders: seq<string> := ["Client_Data_A", "Regulatory_Audit", "Internal_Finance"]
  const ReportNames: seq<string> := ["Q3-Report-2024", "Daily-P&L-Summary", "Audit-Log-2024"]

  /** The status the i-th generated request starts in. */
  function InitialStatus(i: int): RequestStatus {
    if i < 5 then Pending else if i < 10 then Approved else Denied
  }

  /** `String(i).padStart(2, '0')` for the day numbers 1..15 used by the generator. */
  function TwoDigits(i: nat): (r: string)
    requires i < 100
    ensures |r| == 2 && DecimalValue(r) == i
  {
    var tens, ones := DigitChar(i / 10), DigitChar(i % 10);
    assert [tens, ones][..1] == [tens] && [tens][..0] == [];
    assert DecimalValue([tens]) == i / 10;
    assert DecimalValue([tens, ones]) == (i / 10) * 10 + i % 10;
    [tens, ones]
  }

  /** `generateRequests`: requests 1..15, the first four pending, the next five approved, the rest denied. */
  method GenerateRequests() returns (requests: seq<Request>)
    ensures |requests| == 15
    ensures forall k :: 0 <= k < 15 ==> requests[k].id == k + 1
    ensures forall k :: 0 <= k < 15 ==> requests[k].status == InitialStatus(k + 1)
    ensures forall k :: 0 <= k < 15 ==>
      && requests[k].userName == Users[(k + 1) % 5]
      && requests[k].adGroup == Groups[(k + 1) % 4]
      && requests[k].folder == Folders[(k + 1) % 3]
      && requests[k].reportName == ReportNames[(k + 1) % 3]
  {
    requests := [];
    for i := 1 to 16
      invariant |requests| == i - 1
      invariant forall k :: 0 <= k < i - 1 ==> requests[k].id == k + 1
      invariant forall k :: 0 <= k < i - 1 ==> requests[k].status == InitialStatus(k + 1)
      invariant forall k :: 0 <= k < i - 1 ==>
        && requests[k].userName == Users[(k + 1) % 5]
        && requests[k].adGroup == Groups[(k + 1) % 4]
        && requests[k].folder == Folders[(k + 1) % 3]
        && requests[k].reportName == ReportNames[(k + 1) % 3]
    {
      requests := requests + [Request(
        i,
        Users[i % 5],
        Groups[i % 4],
        Folders[i % 3],
        ReportNames[i % 3],
        "2024-05-" + TwoDigits(i),
        if i < 5 then Pending else (if i < 10 then Approved else Denied))];
    }
  }

  /** The status an action string leads to: `approve`, `deny`, and anything else resets to pending. */
  function ActionStatus(action: string): RequestStatus {
    if action == "approve" then Approved else if action == "deny" then Denied else Pending
  }

  /** The request list `handleAction(id, action)` installs. */
  function ApplyAction(requests: seq<Request>, id: int, action: string): (r: seq<Request>)
    ensures |r| == |requests|
    ensures forall i :: 0 <= i < |requests| && requests[i].id == id ==>
      r[i] == requests[i].(status := ActionStatus(action))
    ensures forall i :: 0 <= i < |requests| && requests[i].id != id ==> r[i] == requests[i]
  {
    Map(requests, (req: Request) => if req.id == id then req.(status := ActionStatus(action)) else req)
  }

  /** Only the three documented outcomes exist; unknown actions reset. */
  lemma ActionOutcomes(action: string)
    ensures ActionStatus("approve") == Approved && ActionStatus("deny") == Denied
    ensures action != "approve" && action != "deny" ==> ActionStatus(action) == Pending
    ensures ActionStatus(action) == Approved <==> action == "approve"
    ensures ActionStatus(action) == Denied <==> action == "deny"
  {
  }

  /** For the same request, the last action wins: repeating an action changes nothing more. */
  lemma LastActionWins(requests: seq<Request>, id: int, first: string, second: string)
    ensures ApplyAction(ApplyAction(requests, id, first), id, second) == ApplyAction(requests, id, second)
    ensures ApplyAction(ApplyAction(requests, id, first), id, first) == ApplyAction(requests, id, first)
  {
    var a, b := ApplyAction(ApplyAction(requests, id, first), id, second), ApplyAction(requests, id, second);
    assert forall i :: 0 <= i < |a| ==> a[i] == b[i];
    var c, d := ApplyAction(ApplyAction(requests, id, first), id, first), ApplyAction(requests, id, first);
    assert forall i :: 0 <= i < |c| ==> c[i] == d[i];
  }

  /** The search: user name, AD group or report name contains the term, ignoring case. The folder is not searched. */
  predicate RequestMatches(req: Request, term: string) {
    || IncludesIgnoreCase(req.userName, term)
    || IncludesIgnoreCase(req.adGroup, term)
    || IncludesIgnoreCase(req.reportName, term)
  }

  /** `filteredRequests`. */
  function FilterRequests(requests: seq<Request>, term: string): (r: seq<Request>)
    ensures IsSubsequence(r, requests)
    ensures forall x :: x in r <==> x in requests && RequestMatches(x, term)
    ensures forall x :: multiset(r)[x] == if RequestMatches(x, term) then multiset(requests)[x] else 0
    ensures term == "" ==> r == requests
  {
    var p := (x: Request) => RequestMatches(x, term);
    if term == "" then
      FilterKeepsAll(requests, p);
      Filter(requests, p)
    else
      Filter(requests, p)
  }

  /** Changing a request's folder never changes whether the search finds it. */
  lemma FolderNotSearched(req: Request, folder: string, term: string)
    ensures RequestMatches(req.(folder := folder), term) == RequestMatches(req, term)
  {
  }

  /** The rows of one status: `pendingRequests` and `approvedRequests`. */
  function WithStatus(requests: seq<Request>, status: RequestStatus): (r: seq<Request>)
    ensures IsSubsequence(r, requests)
    ensures forall x :: x in r <==> x in requests && x.status == status
    ensures forall x :: multiset(r)[x] == if x.status == status then multiset(requests)[x] else 0
  {
    Filter(requests, (x: Request) => x.status == status)
  }

  /**
   * The two tables are disjoint order-preserving subsequences of the search
   * result, and a denied request appears in neither.
   */
  lemma PartitionsOfFiltered(requests: seq<Request>, term: string)
    ensures var filtered := FilterRequests(requests, term);
            var pending, approved := WithStatus(filtered, Pending), WithStatus(filtered, Approved);
            && IsSubsequence(pending, filtered) && IsSubsequence(approved, filtered)
            && (forall x :: x in pending ==> x !in approved)
            && (forall x :: x in requests && x.status == Denied ==> x !in pending && x !in approved)
            && (forall x :: x in requests && x.status != Denied && RequestMatches(x, term) ==>
                 x in pending || x in approved)
  {
  }

  predicate HasRequestId(requests: seq<Request>, id: int) {
    exists i :: 0 <= i < |requests| && requests[i].id == id
  }

  /** A table of a status other than Denied shows no request of an id whose requests are all denied. */
  lemma DeniedIdNotShown(requests: seq<Request>, id: int, term: string, status: RequestStatus)
    requires status != Denied
    requires forall i :: 0 <= i < |requests| && requests[i].id == id ==> requests[i].status == Denied
    ensures !HasRequestId(WithStatus(FilterRequests(requests, term), status), id)
  {
    var shown := WithStatus(FilterRequests(requests, term), status);
    forall i | 0 <= i < |shown| ensures shown[i].id != id {
      assert shown[i] in requests;
    }
  }

  /**
   * Revoke sends `deny`: afterwards no request with that id is in either
   * table, under any search term, whatever action came before.
   */
  lemma RevokeHides(requests: seq<Request>, id: int, term: string, earlier: string)
    ensures var after := ApplyAction(requests, id, "deny");
            var filtered := FilterRequests(after, term);
            && !HasRequestId(WithStatus(filtered, Pending), id)
            && !HasRequestId(WithStatus(filtered, Approved), id)
    ensures ApplyAction(ApplyAction(requests, id, earlier), id, "deny") == ApplyAction(requests, id, "deny")
  {
    var after := ApplyAction(requests, id, "deny");
    DeniedIdNotShown(after, id, term, Pending);
    DeniedIdNotShown(after, id, term, Approved);
    LastActionWins(requests, id, earlier, "deny");
  }

  /** The admin screen's component state. */
  class Admin {
    var requests: seq<Request>
    var searchTerm: string

    /** The state on mount: the 15 generated requests and an empty search. */
    constructor ()
      ensures |requests| == 15 && searchTerm == ""
      ensures forall k :: 0 <= k < 15 ==> requests[k].id == k + 1 && requests[k].status == InitialStatus(k + 1)
    {
      var generated := GenerateRequests();
      requests := generated;
      searchTerm := "";
    }

    method SetSearchTerm(term: string)
      modifies this
      ensures searchTerm == term && requests == old(requests)
    {
      searchTerm := term;
    }

    /** `handleAction(id, action)`. */
    method HandleAction(id: int, action: string)
      modifies this
      ensures requests == ApplyAction(old(requests), id, action)
      ensures searchTerm == old(searchTerm)
    {
      requests := ApplyAction(requests, id, action);
    }
  }
}
