/**
 * The task review page: which tasks the current user sees, the pending and
 * approved lists, and the handlers that approve, reject and edit tasks.
 */
module TaskReview {
  import opened Common
  import opened Domain
  import opened Seqs

  predicate IsPending(t: Task) {
    !t.approved
  }

  predicate IsApproved(t: Task) {
    t.approved
  }

  /** A manager sees every task; anyone else sees only the tasks they own. */
  function DisplayTasks(tasks: seq<Task>, currentUser: User): (r: seq<Task>)
    ensures currentUser.role == Manager ==> r == tasks
    ensures currentUser.role != Manager ==> forall t :: t in r <==> t in tasks && t.owner.id == currentUser.id
  {
    if currentUser.role == Manager then tasks
    else Filter(tasks, (t: Task) => t.owner.id == currentUser.id)
  }

  /** The tasks still awaiting approval. */
  function PendingTasks(display: seq<Task>): (r: seq<Task>)
    ensures forall t :: t in r <==> t in display && !t.approved
  {
    Filter(display, IsPending)
  }

  /** The tasks already approved. */
  function ApprovedTasks(display: seq<Task>): (r: seq<Task>)
    ensures forall t :: t in r <==> t in display && t.approved
  {
    Filter(display, IsApproved)
  }

  /** The pending and approved lists split the displayed tasks: each task is in exactly one, in its original order. */
  lemma PendingApprovedPartition(display: seq<Task>)
    ensures |PendingTasks(display)| + |ApprovedTasks(display)| == |display|
    ensures multiset(PendingTasks(display)) + multiset(ApprovedTasks(display)) == multiset(display)
    ensures forall t :: t in PendingTasks(display) ==> !t.approved
    ensures forall t :: t in ApprovedTasks(display) ==> t.approved
    ensures forall a, b :: PendingTasks(a + b) == PendingTasks(a) + PendingTasks(b)
  {
    FilterSplit(display, IsPending, IsApproved);
    forall a, b ensures PendingTasks(a + b) == PendingTasks(a) + PendingTasks(b) {
      FilterConcat(a, b, IsPending);
    }
  }

  /** "All caught up" shows exactly when nothing is displayed. */
  function ShowsEmptyState(tasks: seq<Task>, currentUser: User): (r: bool)
    ensures r <==> DisplayTasks(tasks, currentUser) == []
  {
    var display := DisplayTasks(tasks, currentUser);
    PendingApprovedPartition(display);
    |PendingTasks(display)| == 0 && |ApprovedTasks(display)| == 0
  }

  /** `handleApprove`: every task with the id becomes approved. */
  function Approve(tasks: seq<Task>, id: string): (r: seq<Task>)
    ensures |r| == |tasks| && forall i :: 0 <= i < |r| ==> r[i].id == tasks[i].id
    ensures forall t :: t in r && t.id == id ==> t.approved
  {
    UpdateWhere(tasks, (t: Task) => t.id == id, (t: Task) => t.(approved := true))
  }

  /** `handleReject`: the tasks with the id are removed. */
  function Reject(tasks: seq<Task>, id: string): (r: seq<Task>)
    ensures |r| <= |tasks|
    ensures forall t :: t in r ==> t in tasks && t.id != id
  {
    Filter(tasks, (t: Task) => t.id != id)
  }

  /** `teamMembers.find(m => m.id === ownerId)`: the first member with the id. */
  function FindMember(members: seq<User>, id: string): (r: Option<User>)
    ensures r.None? <==> forall i :: 0 <= i < |members| ==> members[i].id != id
    ensures r.Some? ==> exists i :: 0 <= i < |members| && members[i] == r.value
                          && r.value.id == id
                          && forall j :: 0 <= j < i ==> members[j].id != id
  {
    if members == [] then None
    else if members[0].id == id then Some(members[0])
    else
      var r := FindMember(members[1..], id);
      if r.Some? then
        ghost var i :| 0 <= i < |members[1..]| && members[1..][i] == r.value && r.value.id == id
                      && forall j :: 0 <= j < i ==> members[1..][j].id != id;
        assert members[i + 1] == r.value;
        r
      else r
  }

  /** `handleUpdateOwner`: an owner id that names no team member changes nothing. */
  function UpdateOwner(tasks: seq<Task>, id: string, ownerId: string, teamMembers: seq<User>): (r: seq<Task>)
    ensures |r| == |tasks| && forall i :: 0 <= i < |r| ==> r[i].id == tasks[i].id
  {
    match FindMember(teamMembers, ownerId)
    case None => tasks
    case Some(owner) => UpdateWhere(tasks, (t: Task) => t.id == id, (t: Task) => t.(owner := owner))
  }

  /** `handleUpdateDate`. */
  function UpdateDate(tasks: seq<Task>, id: string, date: string): (r: seq<Task>)
    ensures |r| == |tasks| && forall i :: 0 <= i < |r| ==> r[i].id == tasks[i].id
    ensures forall i :: 0 <= i < |r| && tasks[i].id == id ==> r[i].dueDate == date
  {
    UpdateWhere(tasks, (t: Task) => t.id == id, (t: Task) => t.(dueDate := date))
  }

  /** `handleUpdateTitle`. */
  function UpdateTitle(tasks: seq<Task>, id: string, title: string): (r: seq<Task>)
    ensures |r| == |tasks| && forall i :: 0 <= i < |r| ==> r[i].id == tasks[i].id
    ensures forall i :: 0 <= i < |r| && tasks[i].id == id ==> r[i].title == title
  {
    UpdateWhere(tasks, (t: Task) => t.id == id, (t: Task) => t.(title := title))
  }

  /**
   * Approving touches only the tasks with the id, and only their flag;
   * length and order are kept, and approving again changes nothing.
   */
  lemma ApproveOnlyMatching(tasks: seq<Task>, id: string)
    ensures |Approve(tasks, id)| == |tasks|
    ensures forall i :: 0 <= i < |tasks| && tasks[i].id == id ==> Approve(tasks, id)[i] == tasks[i].(approved := true)
    ensures forall i :: 0 <= i < |tasks| && tasks[i].id != id ==> Approve(tasks, id)[i] == tasks[i]
    ensures Approve(Approve(tasks, id), id) == Approve(tasks, id)
  {
    var once := Approve(tasks, id);
    var twice := Approve(once, id);
    assert |twice| == |once|;
    forall i | 0 <= i < |once| ensures twice[i] == once[i] {
    }
  }

  /**
   * After an approval the pending list is the old pending list without the
   * tasks of that id, in the same order; the approved list gains them at
   * their original places.
   */
  lemma {:induction false} ApproveMovesToApproved(tasks: seq<Task>, id: string)
    ensures PendingTasks(Approve(tasks, id)) == Reject(PendingTasks(tasks), id)
    ensures ApprovedTasks(Approve(tasks, id)) == Approve(Filter(tasks, (t: Task) => t.approved || t.id == id), id)
  {
    if tasks != [] {
      ApproveMovesToApproved(tasks[1..], id);
      assert Approve(tasks, id) == [Approve(tasks, id)[0]] + Approve(tasks[1..], id);
      if tasks[0].approved {
        assert PendingTasks(tasks) == PendingTasks(tasks[1..]);
      } else {
        assert PendingTasks(tasks) == [tasks[0]] + PendingTasks(tasks[1..]);
        assert ([tasks[0]] + PendingTasks(tasks[1..]))[1..] == PendingTasks(tasks[1..]);
      }
      var both := Filter(tasks, (t: Task) => t.approved || t.id == id);
      var rest := Filter(tasks[1..], (t: Task) => t.approved || t.id == id);
      if tasks[0].approved || tasks[0].id == id {
        assert both == [tasks[0]] + rest;
        assert ([tasks[0]] + rest)[1..] == rest;
        assert Approve(both, id) == [Approve(both, id)[0]] + Approve(rest, id);
      } else {
        assert both == rest;
      }
    }
  }

  /** Rejecting removes exactly the tasks with the id and keeps the rest in order. */
  lemma RejectRemovesExactly(tasks: seq<Task>, id: string)
    ensures forall t :: t in Reject(tasks, id) <==> t in tasks && t.id != id
    ensures forall a, b :: Reject(a + b, id) == Reject(a, id) + Reject(b, id)
    ensures |Reject(tasks, id)| + |Filter(tasks, (t: Task) => t.id == id)| == |tasks|
    ensures (forall i :: 0 <= i < |tasks| ==> tasks[i].id != id) ==> Reject(tasks, id) == tasks
  {
    forall a, b ensures Reject(a + b, id) == Reject(a, id) + Reject(b, id) {
      FilterConcat(a, b, (t: Task) => t.id != id);
    }
    FilterSplit(tasks, (t: Task) => t.id != id, (t: Task) => t.id == id);
    FilterAllOrNone(tasks, (t: Task) => t.id != id);
  }

  /**
   * An owner id outside the team leaves the tasks as they are; otherwise
   * every task with the id gets the member `find` returns as its owner,
   * and nothing else changes.
   */
  lemma UpdateOwnerOnlyMatching(tasks: seq<Task>, id: string, ownerId: string, teamMembers: seq<User>)
    ensures (forall m :: m in teamMembers ==> m.id != ownerId) ==> UpdateOwner(tasks, id, ownerId, teamMembers) == tasks
    ensures |UpdateOwner(tasks, id, ownerId, teamMembers)| == |tasks|
    ensures forall i :: 0 <= i < |tasks| ==>
      var t := UpdateOwner(tasks, id, ownerId, teamMembers)[i];
      && t.(owner := tasks[i].owner) == tasks[i]
      && (tasks[i].id != id ==> t == tasks[i])
      && (t != tasks[i] ==> t.owner in teamMembers && t.owner.id == ownerId)
    ensures FindMember(teamMembers, ownerId).Some? ==>
      forall i :: 0 <= i < |tasks| && tasks[i].id == id ==>
        UpdateOwner(tasks, id, ownerId, teamMembers)[i] == tasks[i].(owner := FindMember(teamMembers, ownerId).value)
  {
  }

  /** The date and title edits change that one field of the matching tasks and nothing else. */
  lemma UpdateFieldOnlyMatching(tasks: seq<Task>, id: string, value: string)
    ensures |UpdateDate(tasks, id, value)| == |tasks| && |UpdateTitle(tasks, id, value)| == |tasks|
    ensures forall i :: 0 <= i < |tasks| ==>
      && UpdateDate(tasks, id, value)[i] == (if tasks[i].id == id then tasks[i].(dueDate := value) else tasks[i])
      && UpdateTitle(tasks, id, value)[i] == (if tasks[i].id == id then tasks[i].(title := value) else tasks[i])
  {
  }

  class TaskReviewPage {
    const currentUser: User
    const teamMembers: seq<User>
    var tasks: seq<Task>
    var editingTask: Option<string>

    constructor (initial: seq<Task>, currentUser: User, teamMembers: seq<User>)
      ensures tasks == initial && editingTask.None?
      ensures this.currentUser == currentUser && this.teamMembers == teamMembers
    {
      this.currentUser := currentUser;
      this.teamMembers := teamMembers;
      tasks := initial;
      editingTask := None;
    }

    method HandleApprove(id: string)
      modifies this
      ensures tasks == Approve(old(tasks), id) && editingTask == old(editingTask)
    {
      tasks := Approve(tasks, id);
    }

    method HandleReject(id: string)
      modifies this
      ensures tasks == Reject(old(tasks), id) && editingTask == old(editingTask)
    {
      tasks := Reject(tasks, id);
    }

    method HandleUpdateOwner(id: string, ownerId: string)
      modifies this
      ensures tasks == UpdateOwner(old(tasks), id, ownerId, teamMembers) && editingTask == old(editingTask)
    {
      var newOwner := FindMember(teamMembers, ownerId);
      if newOwner.Some? {
        tasks := UpdateWhere(tasks, (t: Task) => t.id == id, (t: Task) => t.(owner := newOwner.value));
      }
    }

    method HandleUpdateDate(id: string, date: string)
      modifies this
      ensures tasks == UpdateDate(old(tasks), id, date) && editingTask == old(editingTask)
    {
      tasks := UpdateDate(tasks, id, date);
    }

    /** Saving a title also leaves edit mode. */
    method HandleUpdateTitle(id: string, title: string)
      modifies this
      ensures tasks == UpdateTitle(old(tasks), id, title) && editingTask.None?
    {
      tasks := UpdateTitle(tasks, id, title);
      editingTask := None;
    }

    /** The pencil button: edit the title of task `id`. */
    method StartEditing(id: string)
      modifies this
      ensures editingTask == Some(id) && tasks == old(tasks)
    {
      editingTask := Some(id);
    }

    method CancelEditing()
      modifies this
      ensures editingTask.None? && tasks == old(tasks)
    {
      editingTask := None;
    }
  }
}
