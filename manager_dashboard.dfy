/** The manager's home page: the four stat cards, today's tasks, recent meetings and the greeting. */
module ManagerDashboard {
  import opened Domain
  import opened Seqs
  import opened Fixtures
  import MeetingLiveView

  predicate IsTodo(t: Task) { t.status == Todo }
  predicate IsInProgress(t: Task) { t.status == InProgress }
  predicate IsUnapproved(t: Task) { !t.approved }
  predicate IsApproved(t: Task) { t.approved }
  predicate IsLowConfidence(t: Task) { t.confidence == Low }
  predicate IsOpen(t: Task) { t.status != Done }

  /**
   * The number of elements passing `p`: the size of the multiset that
   * holds every copy of each passing element and nothing else, so zero
   * exactly when none passes.
   */
  function Count<T(!new)>(s: seq<T>, p: T -> bool): (n: nat)
    ensures forall x :: multiset(Filter(s, p))[x] == if p(x) then multiset(s)[x] else 0
    ensures n == |multiset(Filter(s, p))|
    ensures n <= |s|
    ensures n == 0 <==> forall i :: 0 <= i < |s| ==> !p(s[i])
  {
    var r := Filter(s, p);
    FilterMultiplicity(s, p);
    assert forall i :: 0 <= i < |s| && p(s[i]) ==> s[i] in r;
    assert |r| > 0 ==> r[0] in r;
    |r|
  }

  /** The "To Do" card. */
  function TodoCount(tasks: seq<Task>): (n: nat)
    ensures forall t :: multiset(Filter(tasks, IsTodo))[t] == if t.status == Todo then multiset(tasks)[t] else 0
    ensures n == |multiset(Filter(tasks, IsTodo))|
    ensures n <= |tasks|
    ensures n == 0 <==> forall i :: 0 <= i < |tasks| ==> tasks[i].status != Todo
  {
    Count(tasks, IsTodo)
  }

  /** The "In Progress" card. */
  function InProgressCount(tasks: seq<Task>): (n: nat)
    ensures forall t :: multiset(Filter(tasks, IsInProgress))[t] == if t.status == InProgress then multiset(tasks)[t] else 0
    ensures n == |multiset(Filter(tasks, IsInProgress))|
    ensures n <= |tasks|
    ensures n == 0 <==> forall i :: 0 <= i < |tasks| ==> tasks[i].status != InProgress
  {
    Count(tasks, IsInProgress)
  }

  /** The "Pending Approval" card. */
  function PendingApproval(tasks: seq<Task>): (n: nat)
    ensures forall t :: multiset(Filter(tasks, IsUnapproved))[t] == if !t.approved then multiset(tasks)[t] else 0
    ensures n == |multiset(Filter(tasks, IsUnapproved))|
    ensures n <= |tasks|
    ensures n == 0 <==> forall i :: 0 <= i < |tasks| ==> tasks[i].approved
  {
    Count(tasks, IsUnapproved)
  }

  /** The "Low Confidence" card. */
  function LowConfidenceCount(tasks: seq<Task>): (n: nat)
    ensures forall t :: multiset(Filter(tasks, IsLowConfidence))[t] == if t.confidence == Low then multiset(tasks)[t] else 0
    ensures n == |multiset(Filter(tasks, IsLowConfidence))|
    ensures n <= |tasks|
    ensures n == 0 <==> forall i :: 0 <= i < |tasks| ==> tasks[i].confidence != Low
  {
    Count(tasks, IsLowConfidence)
  }

  /** How many cards "Today's Tasks" and "Recent Meetings" show. */
  const ShownCount: nat := 3

  /** Today's tasks: the first three tasks that are not done, in list order. */
  function TodaysTasks(tasks: seq<Task>): (r: seq<Task>)
    ensures |r| <= ShownCount
    ensures forall t :: t in r ==> t.status != Done && t in tasks
    ensures |r| == ShownCount || r == Filter(tasks, IsOpen)
    ensures |r| <= |Filter(tasks, IsOpen)| && r == Filter(tasks, IsOpen)[..|r|]
  {
    Take(Filter(tasks, IsOpen), ShownCount)
  }

  /** The first three meetings. */
  function RecentMeetings(meetings: seq<Meeting>): (r: seq<Meeting>)
    ensures |r| <= ShownCount
    ensures |r| <= |meetings| && r == meetings[..|r|]
    ensures |r| == ShownCount || r == meetings
  {
    Take(meetings, ShownCount)
  }

  /** The greeting's first name: `name.split(" ")[0]`, the text before the first space. */
  function FirstName(name: string): (r: string)
    ensures ' ' !in r
  {
    MeetingLiveView.SplitSpaces(name)[0]
  }

  /** Filters by two predicates no element satisfies together pick at most the whole list between them. */
  lemma {:induction false} DisjointFilters<T>(s: seq<T>, p: T -> bool, q: T -> bool)
    requires forall x :: !(p(x) && q(x))
    ensures |Filter(s, p)| + |Filter(s, q)| <= |s|
  {
    if s != [] {
      DisjointFilters(s[1..], p, q);
    }
  }

  /**
   * The stat cards agree with each other: to-do and in-progress tasks are
   * never counted twice, and the pending-approval count is exactly the
   * tasks not yet approved.
   */
  lemma StatCardsConsistent(tasks: seq<Task>)
    ensures TodoCount(tasks) + InProgressCount(tasks) <= |tasks|
    ensures PendingApproval(tasks) + |Filter(tasks, IsApproved)| == |tasks|
    ensures LowConfidenceCount(tasks) <= |tasks|
  {
    DisjointFilters(tasks, IsTodo, IsInProgress);
    FilterSplit(tasks, IsUnapproved, IsApproved);
  }

  /** The first name has no space, and the name is that word followed by the rest of the words. */
  lemma FirstNameIsFirstWord(name: string)
    ensures ' ' !in FirstName(name)
    ensures |FirstName(name)| <= |name| && name[..|FirstName(name)|] == FirstName(name)
    ensures |FirstName(name)| == |name| || name[|FirstName(name)|] == ' '
  {
    var parts := MeetingLiveView.SplitSpaces(name);
    MeetingLiveView.SplitJoin(name);
    if |parts| > 1 {
      assert MeetingLiveView.JoinSpaces(parts) == parts[0] + " " + MeetingLiveView.JoinSpaces(parts[1..]);
    }
  }

  /** Filtering from position `k` looks at element `k` and then filters the rest. */
  lemma FilterFrom<T>(s: seq<T>, k: nat, p: T -> bool)
    requires k < |s|
    ensures Filter(s[k..], p) == (if p(s[k]) then [s[k]] else []) + Filter(s[k + 1..], p)
  {
    assert s[k..][1..] == s[k + 1..];
  }

  lemma CountFrom<T>(s: seq<T>, k: nat, p: T -> bool)
    requires k < |s|
    ensures |Filter(s[k..], p)| == (if p(s[k]) then 1 else 0) + |Filter(s[k + 1..], p)|
  {
    FilterFrom(s, k, p);
  }

  /** On a six-element list a filter's length is the number of positions whose element passes. */
  lemma CountOfSix<T>(s: seq<T>, p: T -> bool)
    requires |s| == 6
    ensures |Filter(s, p)| ==
      (if p(s[0]) then 1 else 0) + (if p(s[1]) then 1 else 0) + (if p(s[2]) then 1 else 0) +
      (if p(s[3]) then 1 else 0) + (if p(s[4]) then 1 else 0) + (if p(s[5]) then 1 else 0)
  {
    CountFrom(s, 5, p);
    assert s[6..] == [];
    CountFrom(s, 4, p);
    CountFrom(s, 3, p);
    CountFrom(s, 2, p);
    CountFrom(s, 1, p);
    CountFrom(s, 0, p);
    assert s[0..] == s;
  }

  /** When the first three elements pass, the first three of the filter are those elements. */
  lemma FirstThreePass<T>(s: seq<T>, p: T -> bool)
    requires |s| >= 3 && p(s[0]) && p(s[1]) && p(s[2])
    ensures Take(Filter(s, p), 3) == s[..3]
  {
    var rest := Filter(s[3..], p);
    FilterFrom(s, 2, p);
    var f2 := [s[2]] + rest;
    assert Filter(s[2..], p) == f2;
    FilterFrom(s, 1, p);
    var f1 := [s[1]] + f2;
    assert Filter(s[1..], p) == f1;
    FilterFrom(s, 0, p);
    assert s[0..] == s;
    var f := [s[0]] + f1;
    assert Filter(s, p) == f;
    assert f[..3] == s[..3];
  }

  /** The statuses, approvals and confidences of the seeded tasks, in order. */
  lemma SeededFields()
    ensures |MockTasks| == 6
    ensures MockTasks[0].status == Todo && MockTasks[1].status == InProgress && MockTasks[2].status == Review
    ensures MockTasks[3].status == Done && MockTasks[4].status == Todo && MockTasks[5].status == InProgress
    ensures !MockTasks[4].approved
    ensures MockTasks[0].approved && MockTasks[1].approved && MockTasks[2].approved
    ensures MockTasks[3].approved && MockTasks[5].approved
    ensures MockTasks[4].confidence == Low
    ensures MockTasks[0].confidence != Low && MockTasks[1].confidence != Low && MockTasks[2].confidence != Low
    ensures MockTasks[3].confidence != Low && MockTasks[5].confidence != Low
    ensures MockTasks[0].id == "1" && MockTasks[1].id == "2" && MockTasks[2].id == "3"
  {
  }

  /** Six tasks with the seeded statuses, approvals and confidences make the cards read 2, 2, 1 and 1. */
  lemma CountsOfSeededShape(tasks: seq<Task>)
    requires |tasks| == 6
    requires tasks[0].status == Todo && tasks[1].status == InProgress && tasks[2].status == Review
    requires tasks[3].status == Done && tasks[4].status == Todo && tasks[5].status == InProgress
    requires !tasks[4].approved && tasks[0].approved && tasks[1].approved && tasks[2].approved
    requires tasks[3].approved && tasks[5].approved
    requires tasks[4].confidence == Low && tasks[0].confidence != Low && tasks[1].confidence != Low
    requires tasks[2].confidence != Low && tasks[3].confidence != Low && tasks[5].confidence != Low
    ensures TodoCount(tasks) == 2
    ensures InProgressCount(tasks) == 2
    ensures PendingApproval(tasks) == 1
    ensures LowConfidenceCount(tasks) == 1
  {
    CountOfSix(tasks, IsTodo);
    CountOfSix(tasks, IsInProgress);
    CountOfSix(tasks, IsUnapproved);
    CountOfSix(tasks, IsLowConfidence);
  }

  /** On the seeded data the cards read 2, 2, 1 and 1. */
  lemma SeededCounts()
    ensures TodoCount(MockTasks) == 2
    ensures InProgressCount(MockTasks) == 2
    ensures PendingApproval(MockTasks) == 1
    ensures LowConfidenceCount(MockTasks) == 1
  {
    SeededFields();
    CountsOfSeededShape(MockTasks);
  }

  /** On the seeded data today's tasks are tasks 1, 2 and 3. */
  lemma SeededTodaysTasks()
    ensures |TodaysTasks(MockTasks)| == 3
    ensures TodaysTasks(MockTasks)[0].id == "1"
    ensures TodaysTasks(MockTasks)[1].id == "2"
    ensures TodaysTasks(MockTasks)[2].id == "3"
  {
    SeededFields();
    FirstThreePass(MockTasks, IsOpen);
  }

  /** The seeded list has three meetings, so "Recent Meetings" shows all of them, standup first. */
  lemma SeededRecentMeetings()
    ensures RecentMeetings(MockMeetings) == MockMeetings
    ensures |RecentMeetings(MockMeetings)| == 3 && RecentMeetings(MockMeetings)[0].id == "1"
  {
    assert |MockMeetings| == 3;
  }

  /** The greeting says "Sarah". */
  lemma Greeting()
    ensures FirstName(CurrentUser.name) == "Sarah"
  {
    assert "Sarah Chen" == "Sarah" + " " + "Chen";
    MeetingLiveView.SplitAtSpace("Sarah", "Chen");
  }
}
