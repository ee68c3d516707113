/** The project-list logic of the alternate dashboard page: the search
    filter, the status tally behind the status chart, the status badge's
    colour class, and the state the page keeps around fetching projects
    and updating a project's status. The two service calls
    (`getProjects`, `updateProjectStatus`) are represented by how they
    settle. */
module Dashboard {
  import opened Wrappers
  import opened Strings

  /** A project row as the table shows it. */
  datatype Project = Project(
    projectId: string,
    projectName: string,
    status: string,
    workflow: string,
    template: string,
    owner: Option<string>)

  // ---------------- status badge ----------------

  const ApprovedClass: string := "bg-green-100 text-green-800 hover:bg-green-200"
  const InProgressClass: string := "bg-amber-100 text-amber-800 hover:bg-amber-200"
  const PendingApprovalClass: string := "bg-blue-100 text-blue-800 hover:bg-blue-200"
  const OpenClass: string := "bg-gray-100 text-gray-800 hover:bg-gray-200"
  const FailedClass: string := "bg-red-100 text-red-800 hover:bg-red-200"

  /** `getStatusColor(status)`: a switch on the lower-cased status. */
  function StatusColor(status: string): (r: string)
    ensures r in {ApprovedClass, InProgressClass, PendingApprovalClass, OpenClass, FailedClass}
    ensures r == ApprovedClass <==> Lower(status) == "approved"
    ensures r == InProgressClass <==> Lower(status) == "in progress"
    ensures r == PendingApprovalClass <==> Lower(status) == "pending approval"
    ensures r == FailedClass <==> Lower(status) == "failed"
  {
    match Lower(status)
    case "approved" => ApprovedClass
    case "in progress" => InProgressClass
    case "pending approval" => PendingApprovalClass
    case "open" => OpenClass
    case "failed" => FailedClass
    case _ => OpenClass
  }

  /** The badge does not depend on letter case. */
  lemma StatusColorIgnoresCase(status: string)
    ensures StatusColor(Lower(status)) == StatusColor(status)
  {
    LowerIdempotent(status);
  }

  /** A status the switch does not name looks like "open". */
  lemma UnknownStatusLooksOpen(status: string)
    requires Lower(status) !in {"approved", "in progress", "pending approval", "open", "failed"}
    ensures StatusColor(status) == StatusColor("open")
  {
  }

  // ---------------- search filter ----------------

  /** `project.projectName.toLowerCase().includes(searchTerm.toLowerCase())` */
  predicate Matches(project: Project, searchTerm: string) {
    Contains(Lower(project.projectName), Lower(searchTerm))
  }

  /** `projects.filter(...)`: the projects whose name matches the term. */
  function FilterProjects(projects: seq<Project>, searchTerm: string): (r: seq<Project>)
    ensures |r| <= |projects|
    ensures forall p :: p in r <==> p in projects && Matches(p, searchTerm)
    ensures forall p :: multiset(r)[p] == if Matches(p, searchTerm) then multiset(projects)[p] else 0
  {
    if projects == [] then []
    else
      var rest := FilterProjects(projects[1..], searchTerm);
      assert projects == [projects[0]] + projects[1..];
      if Matches(projects[0], searchTerm) then [projects[0]] + rest
      else rest
  }

  /** xs is obtained from ys by deleting elements (order kept). */
  predicate IsSubsequence<T(==)>(xs: seq<T>, ys: seq<T>)
    decreases |ys|
  {
    if xs == [] then true
    else if ys == [] then false
    else if xs[0] == ys[0] then IsSubsequence(xs[1..], ys[1..])
    else IsSubsequence(xs, ys[1..])
  }

  /** The filtered list keeps the order of the project list. */
  lemma {:induction false} FilterIsSubsequence(projects: seq<Project>, searchTerm: string)
    ensures IsSubsequence(FilterProjects(projects, searchTerm), projects)
  {
    if projects != [] {
      FilterIsSubsequence(projects[1..], searchTerm);
      var r := FilterProjects(projects, searchTerm);
      if !Matches(projects[0], searchTerm) && r != [] {
        assert r[0] in r;
        assert r[0] != projects[0];
      }
    }
  }

  /** An empty search term keeps every project. */
  lemma {:induction false} EmptyTermKeepsAll(projects: seq<Project>)
    ensures FilterProjects(projects, "") == projects
  {
    if projects != [] {
      assert "" <= Lower(projects[0].projectName);
      EmptyTermKeepsAll(projects[1..]);
    }
  }

  /** Searching ignores the case of the term. */
  lemma {:induction false} FilterIgnoresTermCase(projects: seq<Project>, searchTerm: string)
    ensures FilterProjects(projects, Lower(searchTerm)) == FilterProjects(projects, searchTerm)
  {
    LowerIdempotent(searchTerm);
    if projects != [] {
      FilterIgnoresTermCase(projects[1..], searchTerm);
    }
  }

  // ---------------- status tally ----------------

  /** One bar of the status chart: `{ name: statusName, value: count }`. */
  datatype StatusDatum = StatusDatum(name: string, value: nat)

  /** The number of projects that have exactly this status string. */
  function CountStatus(projects: seq<Project>, status: string): (count: nat) {
    if projects == [] then 0
    else CountStatus(projects[..|projects| - 1], status)
         + (if projects[|projects| - 1].status == status then 1 else 0)
  }

  /** The distinct statuses in order of first appearance. */
  function FirstSeen(projects: seq<Project>): (names: seq<string>) {
    if projects == [] then []
    else
      var prev := FirstSeen(projects[..|projects| - 1]);
      var s := projects[|projects| - 1].status;
      if s in prev then prev else prev + [s]
  }

  /** The bars for the statuses `names`, each with its count in `projects`. */
  function Tally(names: seq<string>, projects: seq<Project>): (r: seq<StatusDatum>)
    ensures |r| == |names|
    ensures forall i :: 0 <= i < |names| ==> r[i] == StatusDatum(names[i], CountStatus(projects, names[i]))
  {
    if names == [] then []
    else Tally(names[..|names| - 1], projects) + [StatusDatum(names[|names| - 1], CountStatus(projects, names[|names| - 1]))]
  }

  /** One more project: its status is appended unless already seen, and
      only its own status's count grows. */
  lemma CountStep(projects: seq<Project>, i: nat)
    requires i < |projects|
    ensures FirstSeen(projects[..i + 1]) ==
      if projects[i].status in FirstSeen(projects[..i]) then FirstSeen(projects[..i])
      else FirstSeen(projects[..i]) + [projects[i].status]
    ensures forall k {:trigger CountStatus(projects[..i + 1], k)} ::
              CountStatus(projects[..i + 1], k) == CountStatus(projects[..i], k) + (if projects[i].status == k then 1 else 0)
  {
    assert projects[..i + 1][..i] == projects[..i];
  }

  /** `dynamicStatusData`: one bar per distinct status, in first-appearance order. */
  function StatusData(projects: seq<Project>): (data: seq<StatusDatum>) {
    Tally(FirstSeen(projects), projects)
  }

  function SumValues(data: seq<StatusDatum>): (r: nat) {
    if data == [] then 0 else SumValues(data[..|data| - 1]) + data[|data| - 1].value
  }

  predicate Distinct(names: seq<string>) {
    forall i, j :: 0 <= i < j < |names| ==> names[i] != names[j]
  }

  /** The index of the first project with this status (|projects| if none). */
  function FirstIndex(projects: seq<Project>, status: string): (k: nat)
    ensures k <= |projects|
    ensures k < |projects| ==> projects[k].status == status
    ensures forall j :: 0 <= j < k ==> projects[j].status != status
  {
    if projects == [] then 0
    else
      var prefix := projects[..|projects| - 1];
      var k := FirstIndex(prefix, status);
      if k < |prefix| then k
      else if projects[|projects| - 1].status == status then |prefix|
      else |projects|
  }

  lemma {:induction false} FirstSeenFacts(projects: seq<Project>)
    ensures Distinct(FirstSeen(projects))
    ensures forall s :: s in FirstSeen(projects) <==> exists p :: p in projects && p.status == s
    ensures forall s :: s !in FirstSeen(projects) ==> CountStatus(projects, s) == 0
    ensures forall s :: s in FirstSeen(projects) ==> CountStatus(projects, s) >= 1
    ensures forall s :: s in FirstSeen(projects) <==> FirstIndex(projects, s) < |projects|
  {
    if projects != [] {
      var prefix := projects[..|projects| - 1];
      var last := projects[|projects| - 1];
      FirstSeenFacts(prefix);
      assert projects == prefix + [last];
      forall s ensures s in FirstSeen(projects) <==> exists p :: p in projects && p.status == s {
        if s in FirstSeen(projects) && s != last.status {
          var p :| p in prefix && p.status == s;
          assert p in projects;
        }
        if exists p :: p in projects && p.status == s {
          var p :| p in projects && p.status == s;
          if p != last { assert p in prefix; }
        }
      }
    }
  }

  /** A status not yet seen has not been counted. */
  lemma UnseenCountsZero(projects: seq<Project>, status: string)
    ensures status !in FirstSeen(projects) ==> CountStatus(projects, status) == 0
  {
    FirstSeenFacts(projects);
  }

  /** The distinct statuses appear in the order of their first project. */
  lemma {:induction false} FirstSeenOrder(projects: seq<Project>, i: nat, j: nat)
    requires i < j < |FirstSeen(projects)|
    ensures FirstIndex(projects, FirstSeen(projects)[i]) < FirstIndex(projects, FirstSeen(projects)[j]) < |projects|
  {
    FirstSeenFacts(projects);
    var names := FirstSeen(projects);
    assert names[i] in names && names[j] in names;
    var prefix := projects[..|projects| - 1];
    var last := projects[|projects| - 1];
    assert projects == prefix + [last];
    FirstSeenFacts(prefix);
    var prevNames := FirstSeen(prefix);
    if j < |prevNames| {
      assert names[i] == prevNames[i] && names[j] == prevNames[j];
      FirstSeenOrder(prefix, i, j);
      FirstIndexPrefix(prefix, last, names[i]);
      FirstIndexPrefix(prefix, last, names[j]);
    } else {
      // names[j] is the last project's status, seen for the first time
      assert names[j] == last.status && last.status !in prevNames;
      assert names[i] == prevNames[i];
      FirstIndexPrefix(prefix, last, names[i]);
      assert FirstIndex(prefix, last.status) == |prefix|;
      assert (prefix + [last])[..|prefix|] == prefix;
    }
  }

  lemma FirstIndexPrefix(prefix: seq<Project>, last: Project, status: string)
    requires FirstIndex(prefix, status) < |prefix|
    ensures FirstIndex(prefix + [last], status) == FirstIndex(prefix, status)
  {
    assert (prefix + [last])[..|prefix|] == prefix;
  }

  /** The bars' counts carry one more project with this status: as many
      bars name it. */
  function Occurrences(names: seq<string>, s: string): (r: nat) {
    if names == [] then 0
    else Occurrences(names[..|names| - 1], s) + (if names[|names| - 1] == s then 1 else 0)
  }

  lemma {:induction false} TallyAppend(names: seq<string>, projects: seq<Project>, p: Project)
    ensures SumValues(Tally(names, projects + [p])) == SumValues(Tally(names, projects)) + Occurrences(names, p.status)
  {
    if names != [] {
      var init := names[..|names| - 1];
      TallyAppend(init, projects, p);
      assert (projects + [p])[..|projects|] == projects;
      var t := Tally(names, projects + [p]);
      assert t[..|t| - 1] == Tally(init, projects + [p]);
      var u := Tally(names, projects);
      assert u[..|u| - 1] == Tally(init, projects);
    }
  }

  lemma {:induction false} OccurrencesDistinct(names: seq<string>, s: string)
    requires Distinct(names)
    ensures Occurrences(names, s) == if s in names then 1 else 0
  {
    if names != [] {
      var init := names[..|names| - 1];
      OccurrencesDistinct(init, s);
      assert names == init + [names[|names| - 1]];
    }
  }

  /** The bars' counts add up to the number of projects they tally. */
  lemma {:induction false} StatusDataSum(projects: seq<Project>)
    ensures SumValues(StatusData(projects)) == |projects|
  {
    if projects != [] {
      var prefix := projects[..|projects| - 1];
      var last := projects[|projects| - 1];
      assert projects == prefix + [last];
      StatusDataSum(prefix);
      FirstSeenFacts(prefix);
      var names := FirstSeen(prefix);
      TallyAppend(names, prefix, last);
      OccurrencesDistinct(names, last.status);
      if last.status !in names {
        var names' := names + [last.status];
        var t := Tally(names', projects);
        assert names'[..|names'| - 1] == names;
        assert t[..|t| - 1] == Tally(names, projects);
      }
    }
  }

  /** One bar per distinct status, each counting the projects with that
      status, so none is empty. */
  lemma StatusDataBars(projects: seq<Project>)
    ensures var data := StatusData(projects);
      && (forall i, j :: 0 <= i < j < |data| ==> data[i].name != data[j].name)
      && (forall i :: 0 <= i < |data| ==> data[i].value == CountStatus(projects, data[i].name) >= 1)
  {
    FirstSeenFacts(projects);
    var names := FirstSeen(projects);
    forall i | 0 <= i < |names| ensures CountStatus(projects, names[i]) >= 1 {
      assert names[i] in names;
    }
  }

  /** Every project's status has a bar, and every bar's status is some project's. */
  lemma StatusDataCovers(projects: seq<Project>)
    ensures var data := StatusData(projects);
      && (forall p :: p in projects ==> exists i :: 0 <= i < |data| && data[i].name == p.status)
      && (forall i :: 0 <= i < |data| ==> exists p :: p in projects && p.status == data[i].name)
  {
    FirstSeenFacts(projects);
    var data := StatusData(projects);
    var names := FirstSeen(projects);
    forall p | p in projects ensures exists i :: 0 <= i < |data| && data[i].name == p.status {
      assert p.status in names;
      var i :| 0 <= i < |names| && names[i] == p.status;
      assert data[i].name == p.status;
    }
    forall i | 0 <= i < |data| ensures exists p :: p in projects && p.status == data[i].name {
      assert names[i] in names;
    }
  }

  /** Grouping compares the raw status, while the badge lower-cases it:
      "Open" and "open" are two bars with one colour. */
  lemma GroupingIsCaseSensitive()
    ensures var ps := [Project("1", "a", "Open", "", "", None), Project("2", "b", "open", "", "", None)];
      |StatusData(ps)| == 2 && StatusColor("Open") == StatusColor("open")
  {
    var ps := [Project("1", "a", "Open", "", "", None), Project("2", "b", "open", "", "", None)];
    assert ps[..1] == [ps[0]];
    assert [ps[0]][..0] == [];
    assert FirstSeen([ps[0]]) == ["Open"];
    assert FirstSeen(ps) == ["Open", "open"];
  }

  /** The `reduce` that builds `dynamicStatusData`: an accumulator object
      keyed by status, a bar created at a status's first project and its
      count incremented at every project; `Object.values` then lists the
      bars in the order their keys were inserted. */
  method CountStatuses(filtered: seq<Project>) returns (data: seq<StatusDatum>)
    ensures data == StatusData(filtered)
  {
    var acc: map<string, StatusDatum> := map[];
    var keys: seq<string> := [];   // insertion order of acc's keys
    for i := 0 to |filtered|
      invariant keys == FirstSeen(filtered[..i])
      invariant forall k :: k in acc <==> k in keys
      invariant forall k :: k in acc ==> acc[k] == StatusDatum(k, CountStatus(filtered[..i], k))
    {
      CountStep(filtered, i);
      UnseenCountsZero(filtered[..i], filtered[i].status);
      var statusName := filtered[i].status;
      if statusName !in acc {
        acc := acc[statusName := StatusDatum(statusName, 0)];
        keys := keys + [statusName];
      }
      acc := acc[statusName := acc[statusName].(value := acc[statusName].value + 1)];
    }
    assert filtered[..|filtered|] == filtered;
    data := [];
    for j := 0 to |keys|
      invariant data == Tally(keys[..j], filtered)
    {
      assert keys[..j + 1][..j] == keys[..j];
      data := data + [acc[keys[j]]];
    }
    assert keys[..|keys|] == keys;
  }

  // ---------------- status update ----------------

  /** `prev.map(p => p.projectId === projectId ? { ...p, status: newStatus } : p)` */
  function PatchStatus(projects: seq<Project>, projectId: string, newStatus: string): (r: seq<Project>)
    ensures |r| == |projects|
    ensures forall i :: 0 <= i < |projects| ==>
              r[i] == if projects[i].projectId == projectId then projects[i].(status := newStatus) else projects[i]
  {
    if projects == [] then []
    else
      var p := projects[0];
      [if p.projectId == projectId then p.(status := newStatus) else p]
        + PatchStatus(projects[1..], projectId, newStatus)
  }

  /** Patching twice with the same status is patching once. */
  lemma PatchStatusIdempotent(projects: seq<Project>, projectId: string, newStatus: string)
    ensures PatchStatus(PatchStatus(projects, projectId, newStatus), projectId, newStatus)
         == PatchStatus(projects, projectId, newStatus)
  {
  }

  /** Patching never changes which projects are on the list or their order. */
  lemma PatchStatusKeepsIds(projects: seq<Project>, projectId: string, newStatus: string)
    ensures var r := PatchStatus(projects, projectId, newStatus);
      forall i :: 0 <= i < |r| ==> r[i].projectId == projects[i].projectId && r[i].projectName == projects[i].projectName
  {
  }

  // ---------------- page state ----------------

  const FetchFailedMessage: string := "Failed to fetch projects."

  /** The state of the dashboard page. */
  class Board {
    var searchTerm: string
    var projects: seq<Project>
    var isLoading: bool
    var error: Option<string>

    constructor ()
      ensures searchTerm == "" && projects == [] && isLoading && error == None
    {
      searchTerm := "";
      projects := [];
      isLoading := true;
      error := None;
    }

    /** The projects the table shows. */
    function FilteredProjects(): (r: seq<Project>)
      reads this
      ensures forall p :: p in r <==> p in projects && Matches(p, searchTerm)
      ensures forall p :: multiset(r)[p] == if Matches(p, searchTerm) then multiset(projects)[p] else 0
    {
      FilterProjects(projects, searchTerm)
    }

    method SetSearchTerm(term: string)
      modifies this`searchTerm
      ensures searchTerm == term
    {
      searchTerm := term;
    }

    /** The status chart's bars, computed from the filtered projects. */
    method StatusChartData() returns (data: seq<StatusDatum>)
      ensures data == StatusData(FilteredProjects())
    {
      data := CountStatuses(FilteredProjects());
    }

    /** The synchronous start of `fetchProjects`. */
    method BeginFetch()
      modifies this`isLoading, this`error
      ensures isLoading && error == None
    {
      isLoading := true;
      error := None;
    }

    /** The rest of `fetchProjects`, once `getProjects` has settled. */
    method EndFetch(fetched: Outcome<seq<Project>>)
      modifies this`projects, this`isLoading, this`error
      ensures !isLoading
      ensures fetched.Resolved? ==> projects == fetched.value && error == old(error)
      ensures fetched.Rejected? ==> projects == old(projects) && error == Some(MessageOr(fetched.message, FetchFailedMessage))
    {
      match fetched {
        case Resolved(data) =>
          projects := data;
        case Rejected(message) =>
          error := Some(MessageOr(message, FetchFailedMessage));
      }
      isLoading := false;
    }

    /** `fetchProjects()` */
    method FetchProjects(fetched: Outcome<seq<Project>>)
      modifies this`projects, this`isLoading, this`error
      ensures !isLoading
      ensures fetched.Resolved? ==> projects == fetched.value && error == None
      ensures fetched.Rejected? ==> projects == old(projects) && error == Some(MessageOr(fetched.message, FetchFailedMessage))
    {
      BeginFetch();
      EndFetch(fetched);
    }

    /** `handleStatusUpdate(projectId, newStatus)`, given how
        `updateProjectStatus` settled: on success every project with that
        id gets the new status; on failure nothing changes. */
    method HandleStatusUpdate(projectId: string, newStatus: string, updated: Outcome<()>)
      modifies this`projects
      ensures updated.Resolved? ==> projects == PatchStatus(old(projects), projectId, newStatus)
      ensures updated.Rejected? ==> projects == old(projects)
      ensures |projects| == |old(projects)|
    {
      if updated.Resolved? {
        projects := PatchStatus(projects, projectId, newStatus);
      }
    }
  }
}
