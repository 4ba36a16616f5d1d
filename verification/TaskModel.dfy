/** Tasks, the requests that edit them, and the rules one edit must obey on its own. */
module TaskModel {
  import opened Prelude

  /** The four status names the service knows; any other string is Unknown. */
  datatype Status = Todo | InProgress | Completed | Blocked | Unknown(text: string)

  datatype Role = Manager | Admin | OtherRole(text: string)

  /** A due-date argument: absent, not a date, or a day. */
  datatype DateArg = NoDate | BadDate | Day(day: int)

  /** The columns of a task that nothing else depends on. */
  datatype Details = Details(title: string, description: string, priority: string, dueDate: Option<int>)

  datatype Task = Task(
    id: string, projectID: string, companyID: string, createdBy: string,
    details: Details, status: Status, assignedTo: Option<string>)

  /** The texts and the due date a create or an edit request carries; an empty text means "not given". */
  datatype Form = Form(title: string, description: string, priority: string, dueDate: DateArg)

  datatype Request =
    | Create(taskID: string, companyID: string, projectID: string, createdBy: string, form: Form)
    | Assign(taskID: string, companyID: string, assignedTo: string, assignedBy: string)
    | ChangeStatus(taskID: string, companyID: string, newStatus: Status, changedBy: string, role: Role)
    | Edit(taskID: string, companyID: string, form: Form)

  datatype Error =
    | InvalidInput | LockFailure | TaskLocked | NotFound | UserNotFound
    | StorageFailure | InvalidTransition | Forbidden | InvalidDate | Stopped

  datatype Outcome = Ok(task: Task) | Failed(error: Error)

  /** allowedTransitions: the status state machine. */
  predicate Allowed(from: Status, to: Status)
  {
    || (from == Todo && to == InProgress)
    || (from == InProgress && (to == Completed || to == Blocked))
    || (from == Blocked && to == InProgress)
    || (from == Completed && to == InProgress)
  }

  /** managerOnlyTransitions: sending a completed task back. */
  predicate ManagerOnly(from: Status, to: Status) { from == Completed && to == InProgress }

  predicate IsManager(role: Role) { role.Manager? || role.Admin? }

  /** The checks a request passes before it touches anything shared. */
  predicate WellFormed(req: Request)
  {
    match req
    case Create(_, companyID, projectID, createdBy, form) =>
      form.title != "" && companyID != "" && projectID != "" && createdBy != ""
    case Assign(taskID, companyID, assignedTo, assignedBy) =>
      taskID != "" && companyID != "" && assignedTo != "" && assignedBy != ""
    case ChangeStatus(taskID, companyID, newStatus, changedBy, _) =>
      taskID != "" && companyID != "" && newStatus != Unknown("") && changedBy != ""
    case Edit(_, _, _) => true
  }

  function InitialDetails(form: Form): Details
  {
    Details(form.title, form.description, if form.priority == "" then "medium" else form.priority,
            if form.dueDate.Day? then Some(form.dueDate.day) else None)
  }

  /** The row a create request inserts. The controller never forwards an assignee. */
  function NewTask(req: Request): Task
    requires req.Create?
  {
    Task(req.taskID, req.projectID, req.companyID, req.createdBy, InitialDetails(req.form), Todo, None)
  }

  function RevisedDetails(prior: Details, form: Form): Details
  {
    Details(if form.title != "" then form.title else prior.title,
            if form.description != "" then form.description else prior.description,
            if form.priority != "" then form.priority else prior.priority,
            if form.dueDate.Day? then Some(form.dueDate.day) else prior.dueDate)
  }

  /** One validated edit of one row, as if no other request were running. */
  function Edited(row: Task, req: Request): Outcome
  {
    match req
    case Create(_, _, _, _, _) => Failed(InvalidInput)
    case Assign(_, _, assignedTo, _) => Ok(row.(assignedTo := Some(assignedTo)))
    case ChangeStatus(_, _, newStatus, _, role) =>
      if !Allowed(row.status, newStatus) then Failed(InvalidTransition)
      else if ManagerOnly(row.status, newStatus) && !IsManager(role) then Failed(Forbidden)
      else Ok(row.(status := newStatus))
    case Edit(_, _, form) =>
      if form.dueDate.BadDate? then Failed(InvalidDate)
      else Ok(row.(details := RevisedDetails(row.details, form)))
  }

  /** The rules of a status change, move by move: five moves are possible, reopening a completed task takes a manager or
      an admin, and nothing but the status changes. */
  lemma StatusRules(row: Task, req: Request)
    requires req.ChangeStatus?
    ensures Edited(row, req) == Failed(InvalidTransition) <==>
              (row.status, req.newStatus) !in {(Todo, InProgress), (InProgress, Completed), (InProgress, Blocked),
                                               (Blocked, InProgress), (Completed, InProgress)}
    ensures Edited(row, req) == Failed(Forbidden) <==>
              row.status == Completed && req.newStatus == InProgress && req.role != Manager && req.role != Admin
    ensures Edited(row, req) in {Failed(InvalidTransition), Failed(Forbidden), Ok(row.(status := req.newStatus))}
  {
  }

  /** A request together with the identity of the call that carried it. */
  datatype Entry = Entry(call: nat, req: Request)

  /** The sequential history of a row: its edits applied one after another. */
  function Replay(root: Task, history: seq<Entry>): Outcome
  {
    if history == [] then Ok(root)
    else
      match Replay(root, history[..|history| - 1])
      case Failed(error) => Failed(error)
      case Ok(row) => Edited(row, history[|history| - 1].req)
  }

  lemma ReplaySnoc(root: Task, history: seq<Entry>, e: Entry)
    requires Replay(root, history).Ok?
    ensures Replay(root, history + [e]) == Edited(Replay(root, history).task, e.req)
  {
    assert (history + [e])[..|history|] == history;
  }

  // ---- what a legal sequential history says about statuses ----

  /** The status changes of a history, each as (old, new). */
  function Moves(root: Task, history: seq<Entry>): seq<(Status, Status)>
    requires Replay(root, history).Ok?
  {
    if history == [] then []
    else
      var before := history[..|history| - 1];
      var last := history[|history| - 1].req;
      Moves(root, before) +
      if last.ChangeStatus? then [(Replay(root, before).task.status, last.newStatus)] else []
  }

  lemma MovesSnoc(root: Task, history: seq<Entry>, e: Entry)
    requires Replay(root, history).Ok? && Replay(root, history + [e]).Ok?
    ensures Moves(root, history + [e]) == Moves(root, history) +
            if e.req.ChangeStatus? then [(Replay(root, history).task.status, e.req.newStatus)] else []
  {
    assert (history + [e])[..|history|] == history;
  }

  /** How many moves enter the given status. */
  function Entries(moves: seq<(Status, Status)>, status: Status): nat
  {
    if moves == [] then 0
    else Entries(moves[..|moves| - 1], status) + if moves[|moves| - 1].1 == status then 1 else 0
  }

  /** How many moves leave the given status. */
  function Exits(moves: seq<(Status, Status)>, status: Status): nat
  {
    if moves == [] then 0
    else Exits(moves[..|moves| - 1], status) + if moves[|moves| - 1].0 == status then 1 else 0
  }

  /** The moves form a path of the transition map from one status to another. */
  ghost predicate Path(from: Status, moves: seq<(Status, Status)>, to: Status)
  {
    if moves == [] then from == to
    else
      var last := moves[|moves| - 1];
      && Path(from, moves[..|moves| - 1], last.0)
      && Allowed(last.0, last.1)
      && last.1 == to
  }

  lemma {:induction false} MovesFormPath(root: Task, history: seq<Entry>)
    requires Replay(root, history).Ok?
    ensures Path(root.status, Moves(root, history), Replay(root, history).task.status)
  {
    if history != [] {
      var before := history[..|history| - 1];
      MovesFormPath(root, before);
      var moves := Moves(root, history);
      if history[|history| - 1].req.ChangeStatus? {
        assert moves[..|moves| - 1] == Moves(root, before);
      } else {
        assert moves == Moves(root, before);
      }
    }
  }

  /** On a path from todo every move is one of five, nothing returns to todo, and done and blocked are entered once more
      than they are left exactly while the task is in them. */
  lemma {:induction false} PathCounts(moves: seq<(Status, Status)>, to: Status)
    requires Path(Todo, moves, to)
    ensures Entries(moves, Todo) == 0
    ensures Entries(moves, Completed) == Exits(moves, Completed) + if to == Completed then 1 else 0
    ensures Entries(moves, Blocked) == Exits(moves, Blocked) + if to == Blocked then 1 else 0
    ensures forall k | 0 <= k < |moves| ::
              moves[k] in {(Todo, InProgress), (InProgress, Completed), (InProgress, Blocked), (Blocked, InProgress),
                           (Completed, InProgress)}
  {
    if moves != [] {
      var last := moves[|moves| - 1];
      PathCounts(moves[..|moves| - 1], last.0);
      assert forall k | 0 <= k < |moves| - 1 :: moves[k] == moves[..|moves| - 1][k];
    }
  }

  /** Consecutive moves of a path chain old status to new status. */
  lemma {:induction false} PathChains(from: Status, moves: seq<(Status, Status)>, to: Status)
    requires Path(from, moves, to)
    ensures moves != [] ==> moves[0].0 == from && moves[|moves| - 1].1 == to
    ensures forall k | 0 <= k < |moves| - 1 :: moves[k].1 == moves[k + 1].0
  {
    if moves != [] {
      var before := moves[..|moves| - 1];
      PathChains(from, before, moves[|moves| - 1].0);
      forall k | 0 <= k < |moves| - 1
        ensures moves[k].1 == moves[k + 1].0
      {
        assert moves[k] == before[k];
        if k + 1 < |before| { assert moves[k + 1] == before[k + 1]; }
      }
    }
  }

  /** Every reopening in a legal history was asked for by a manager or an admin. */
  lemma {:induction false} ReopenersAreManagers(root: Task, history: seq<Entry>, k: nat)
    requires Replay(root, history).Ok? && k < |history|
    ensures Replay(root, history[..k]).Ok?
    ensures history[k].req.ChangeStatus? && Replay(root, history[..k]).task.status == Completed
            ==> history[k].req.role in {Manager, Admin} && history[k].req.newStatus == InProgress
  {
    var before := history[..|history| - 1];
    if k < |before| {
      ReopenersAreManagers(root, before, k);
      assert before[..k] == history[..k];
    } else {
      assert history[..k] == before;
    }
  }

  /** The number of manager or admin reopenings recorded in a history: completed tasks sent back. */
  function Reopenings(root: Task, history: seq<Entry>): nat
    requires Replay(root, history).Ok?
  {
    if history == [] then 0
    else
      var before := history[..|history| - 1];
      var last := history[|history| - 1].req;
      Reopenings(root, before) +
      if last.ChangeStatus? && IsManager(last.role) && Replay(root, before).task.status == Completed &&
        last.newStatus == InProgress
      then 1 else 0
  }

  lemma {:induction false} ReopeningsAreExits(root: Task, history: seq<Entry>)
    requires Replay(root, history).Ok?
    ensures Exits(Moves(root, history), Completed) == Reopenings(root, history)
  {
    if history != [] {
      var before := history[..|history| - 1];
      var moves := Moves(root, history);
      ReopeningsAreExits(root, before);
      if history[|history| - 1].req.ChangeStatus? {
        assert moves[..|moves| - 1] == Moves(root, before);
      } else {
        assert moves == Moves(root, before);
      }
    }
  }
}
