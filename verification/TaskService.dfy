/** The task service's own code: its stores and its use cases, statement by statement. Between any two remote
    commands the rest of the system may do anything; each use case is proved to be one run of the protocol. */
module TaskService {
  import opened Prelude
  import opened Runs
  import opened KeyStore
  import opened TaskModel
  import opened TaskProtocol

  /** The lock client over the key store, with the store's clock. nilIsError says whether the store's client reports an
      occupied key as an error. */
  class RedisLock {
    const nilIsError: bool
    var now: int
    var keys: map<string, Slot<nat>>

    constructor (nilIsError: bool, now: int)
      ensures this.nilIsError == nilIsError && this.now == now && keys == map[]
    {
      this.nilIsError, this.now := nilIsError, now;
      keys := map[];
    }

    method SetNX(key: string, value: nat, ttl: int, fate: Fate) returns (acquired: bool, failed: bool)
      modifies `keys
      ensures keys == if fate.Applied() then old(keys)[key := KeyStore.SetNX(Lookup(old(keys), key), value, ttl, now)]
              else old(keys)
      ensures failed == (fate.Lost? || (nilIsError && Lookup(old(keys), key).Occupied(now)))
      ensures acquired == (fate.Answered? && !Lookup(old(keys), key).Occupied(now))
    {
      var slot := Lookup(keys, key);
      if fate.Applied() { keys := keys[key := KeyStore.SetNX(slot, value, ttl, now)]; }
      acquired := fate.Answered? && !slot.Occupied(now);
      failed := fate.Lost? || (nilIsError && slot.Occupied(now));
    }

    method Del(key: string, fate: Fate)
      modifies `keys
      ensures keys == if fate.Applied() then old(keys)[key := Empty] else old(keys)
    {
      if fate.Applied() { keys := keys[key := Empty]; }
    }
  }

  /** The tasks table. */
  class TaskRepository {
    var rows: map<string, Task>

    constructor ()
      ensures rows == map[]
    {
      rows := map[];
    }

    method FindByID(companyID: string, taskID: string, fate: Fate) returns (found: Outcome)
      ensures found == if fate.Lost? then Failed(StorageFailure)
                       else if taskID in rows && rows[taskID].companyID == companyID then Ok(rows[taskID])
                       else Failed(NotFound)
    {
      if fate.Lost? { return Failed(StorageFailure); }
      if taskID !in rows || rows[taskID].companyID != companyID { return Failed(NotFound); }
      return Ok(rows[taskID]);
    }

    /** Insert; the primary key rejects an id already in use. */
    method Create(task: Task, fate: Fate) returns (failed: bool)
      modifies `rows
      ensures task.id in old(rows) ==> failed && rows == old(rows)
      ensures task.id !in old(rows) ==>
                failed == fate.Lost? && rows == if fate.Applied() then old(rows)[task.id := task] else old(rows)
    {
      if task.id in rows { return true; }
      if fate.Applied() { rows := rows[task.id := task]; }
      return fate.Lost?;
    }

    /** Save: every column of the row, whatever it holds by now. */
    method Update(task: Task, fate: Fate) returns (failed: bool)
      modifies `rows
      ensures rows == if fate.Applied() then old(rows)[task.id := task] else old(rows)
      ensures failed == fate.Lost?
    {
      if fate.Applied() { rows := rows[task.id := task]; }
      return fate.Lost?;
    }
  }

  /** The users or the projects table, read by company. */
  class Directory {
    var members: map<string, Member>

    constructor ()
      ensures members == map[]
    {
      members := map[];
    }

    method FindByID(companyID: string, id: string, fate: Fate) returns (found: bool)
      ensures found == (fate.Answered? && Present(members, id, companyID))
      ensures found <==> fate.Answered? && id in members && members[id].company == companyID && !members[id].deleted
    {
      return fate.Answered? && id in members && members[id].company == companyID && !members[id].deleted;
    }
  }

  class EventPublisher {
    var bus: seq<Posted>

    constructor ()
      ensures bus == []
    {
      bus := [];
    }

    method Publish(call: nat, event: Event, fate: Fate)
      modifies `bus
      ensures bus == if fate.Applied() then old(bus) + [Posted(call, event)] else old(bus)
    {
      if fate.Applied() { bus := bus + [Posted(call, event)]; }
    }
  }

  /** What happens around one remote command: the steps of others before it, and the command's own fate. */
  datatype Moment = Moment(others: seq<Step>, fate: Fate)

  ghost predicate LeavesAlone(others: seq<Step>, call: nat)
  {
    forall k | 0 <= k < |others| :: !Mentions(others[k], call)
  }

  /** The call arrives with the request, takes every step itself and never crashes; all else is others' doing. */
  ghost predicate OwnRun(steps: seq<Step>, call: nat, req: Request)
  {
    forall k | 0 <= k < |steps| :: Mentions(steps[k], call) ==> steps[k] == Arrive(call, req) || steps[k].Advance?
  }

  lemma {:induction false} OthersLeaveFlight(w: World, others: seq<Step>, call: nat)
    requires LeavesAlone(others, call)
    ensures var w' := Run(Next, w, others);
            (call in w'.flights <==> call in w.flights) && (call in w.flights ==> w'.flights[call] == w.flights[call])
  {
    if others != [] {
      var before := others[..|others| - 1];
      OthersLeaveFlight(w, before, call);
      StepLeavesFlight(Run(Next, w, before), others[|others| - 1], call);
    }
  }

  /** The run so far, lengthened by one command and the pause before it. */
  function Then(steps: seq<Step>, call: nat, m: Moment): seq<Step>
  {
    steps + m.others + [Advance(call, m.fate)]
  }

  lemma RunThen(w: World, steps: seq<Step>, call: nat, req: Request, m: Moment)
    requires LeavesAlone(m.others, call) && OwnRun(steps, call, req)
    ensures Run(Next, w, Then(steps, call, m)) == Next(Run(Next, Run(Next, w, steps), m.others), Advance(call, m.fate))
    ensures OwnRun(Then(steps, call, m), call, req)
  {
    RunConcat(Next, w, steps, m.others);
    RunSnoc(Next, w, steps + m.others, Advance(call, m.fate));
  }

  lemma ClaimStep(w: World, call: nat, fate: Fate)
    requires call in w.flights && w.flights[call].pc.Claiming?
    ensures var f := w.flights[call];
            var slot := Lookup(w.locks, LockKey(f.req.taskID));
            var won := fate.Answered? && !slot.Occupied(w.now);
            var tickets := if won then w.tickets + 1 else w.tickets;
            var pc := if fate.Lost? then Done(Failed(LockFailure))
                      else if won then Reading else Done(Failed(TaskLocked));
            Advanced(w, call, fate)
            == w.(locks := if fate.Applied()
                           then w.locks[LockKey(f.req.taskID) := SetNX(slot, call, LOCK_TTL, w.now)]
                           else w.locks,
                  tickets := tickets,
                  flights := w.flights[call := f.(pc := pc, ticket := if won then tickets else f.ticket)])
  {
  }

  /** The local part of UpdateTaskStatus: the transition map, then the manager-only map. */
  method MoveStatus(task: Task, req: Request) returns (moved: Outcome)
    requires req.ChangeStatus?
    ensures moved == Edited(task, req)
    ensures moved == Failed(InvalidTransition) <==>
              (task.status, req.newStatus) !in {(Todo, InProgress), (InProgress, Completed), (InProgress, Blocked),
                                                (Blocked, InProgress), (Completed, InProgress)}
    ensures moved == Failed(Forbidden) <==>
              task.status == Completed && req.newStatus == InProgress && req.role != Manager && req.role != Admin
    ensures moved.Ok? ==> moved.task == task.(status := req.newStatus)
  {
    var oldStatus := task.status;
    if !Allowed(oldStatus, req.newStatus) { return Failed(InvalidTransition); }
    if ManagerOnly(oldStatus, req.newStatus) {
      if req.role != Manager && req.role != Admin { return Failed(Forbidden); }
    }
    return Ok(task.(status := req.newStatus));
  }

  /** The local part of UpdateTask: each non-empty field replaces the column. */
  method ApplyForm(task: Task, req: Request) returns (revised: Outcome)
    requires req.Edit?
    ensures revised == Edited(task, req)
    ensures revised == Failed(InvalidDate) <==> req.form.dueDate.BadDate?
    ensures revised.Failed? ==> revised == Failed(InvalidDate)
    ensures revised.Ok? ==>
              && revised.task == task.(details := revised.task.details)
              && (req.form.title != "" ==> revised.task.details.title == req.form.title)
              && (req.form.description != "" ==> revised.task.details.description == req.form.description)
              && (req.form.priority != "" ==> revised.task.details.priority == req.form.priority)
              && (req.form.dueDate.Day? ==> revised.task.details.dueDate == Some(req.form.dueDate.day))
              && (req.form.title == "" ==> revised.task.details.title == task.details.title)
              && (req.form.description == "" ==> revised.task.details.description == task.details.description)
              && (req.form.priority == "" ==> revised.task.details.priority == task.details.priority)
              && (req.form.dueDate.NoDate? ==> revised.task.details.dueDate == task.details.dueDate)
  {
    var details := task.details;
    if req.form.title != "" { details := details.(title := req.form.title); }
    if req.form.description != "" { details := details.(description := req.form.description); }
    if req.form.priority != "" { details := details.(priority := req.form.priority); }
    if req.form.dueDate != NoDate {
      if req.form.dueDate.BadDate? { return Failed(InvalidDate); }
      details := details.(dueDate := Some(req.form.dueDate.day));
    }
    return Ok(task.(details := details));
  }

  /** The local part of CreateTask: default priority, initial status, optional due date. */
  method BuildTask(req: Request) returns (built: Outcome)
    requires req.Create?
    ensures built == if req.form.dueDate.BadDate? then Failed(InvalidInput) else Ok(NewTask(req))
    ensures built.Ok? ==>
              && built.task.id == req.taskID && built.task.projectID == req.projectID
              && built.task.companyID == req.companyID && built.task.createdBy == req.createdBy
              && built.task.status == Todo && built.task.assignedTo == None
              && built.task.details.title == req.form.title && built.task.details.description == req.form.description
              && built.task.details.priority == (if req.form.priority == "" then "medium" else req.form.priority)
              && built.task.details.dueDate == (if req.form.dueDate.Day? then Some(req.form.dueDate.day) else None)
  {
    var priority := req.form.priority;
    if priority == "" { priority := "medium"; }
    var details := Details(req.form.title, req.form.description, priority, None);
    if req.form.dueDate != NoDate {
      if req.form.dueDate.BadDate? { return Failed(InvalidInput); }
      details := details.(dueDate := Some(req.form.dueDate.day));
    }
    return Ok(Task(req.taskID, req.projectID, req.companyID, req.createdBy, details, Todo, None));
  }

  /** What reading the task's row answers in the given state. */
  function Found(w: World, req: Request, fate: Fate): Outcome
  {
    if fate.Lost? then Failed(StorageFailure)
    else if req.taskID in w.rows && w.rows[req.taskID].companyID == req.companyID then Ok(w.rows[req.taskID])
    else Failed(NotFound)
  }

  /** What a status change answers after the read, and after the save if it comes so far. */
  function ChangeAnswer(read: Outcome, req: Request, save: Fate): Outcome
    requires req.ChangeStatus?
  {
    if read.Failed? then read
    else if (read.task.status, req.newStatus) !in {(Todo, InProgress), (InProgress, Completed), (InProgress, Blocked),
                                                   (Blocked, InProgress), (Completed, InProgress)}
    then Failed(InvalidTransition)
    else if read.task.status == Completed && req.role != Manager && req.role != Admin then Failed(Forbidden)
    else if save.Lost? then Failed(StorageFailure)
    else Ok(read.task.(status := req.newStatus))
  }

  lemma ChangeRules(read: Outcome, req: Request, moved: Outcome, save: Fate)
    requires req.ChangeStatus? && moved == (if read.Ok? then Edited(read.task, req) else read)
    ensures ChangeAnswer(read, req, save) == if moved.Ok? && save.Lost? then Failed(StorageFailure) else moved
    ensures moved != Failed(InvalidInput) || read == Failed(InvalidInput)
  {
    if read.Ok? { StatusRules(read.task, req); }
  }

  class Service {
    const locker: RedisLock
    const taskRepo: TaskRepository
    const userRepo: Directory
    const projectRepo: Directory
    const publisher: EventPublisher

    // bookkeeping of the calls in flight, which no use case reads
    var flights: map<nat, Flight>
    var tickets: nat
    var past: map<string, Provenance>

    ghost const parts: set<object>

    ghost predicate Valid()
      reads this
    {
      && userRepo != projectRepo
      && parts == {this, locker, taskRepo, userRepo, projectRepo, publisher}
    }

    function View(): World
      reads this, locker, taskRepo, userRepo, projectRepo, publisher
    {
      World(locker.now, locker.keys, taskRepo.rows, userRepo.members, projectRepo.members, publisher.bus,
            flights, tickets, past)
    }

    constructor (nilIsError: bool, now: int)
      ensures Valid() && fresh(parts)
      ensures View() == Start(now) && locker.nilIsError == nilIsError
    {
      var l := new RedisLock(nilIsError, now);
      var t := new TaskRepository();
      var u := new Directory();
      var p := new Directory();
      var e := new EventPublisher();
      locker, taskRepo, userRepo, projectRepo, publisher := l, t, u, p, e;
      flights, tickets, past := map[], 0, map[];
      parts := {this, l, t, u, p, e};
    }

    /** Others run for a while. */
    method Pause(others: seq<Step>)
      requires Valid()
      modifies parts
      ensures View() == Run(Next, old(View()), others)
    {
      var w := Run(Next, View(), others);
      locker.now, locker.keys := w.now, w.locks;
      taskRepo.rows := w.rows;
      userRepo.members, projectRepo.members := w.users, w.projects;
      publisher.bus := w.bus;
      flights, tickets, past := w.flights, w.tickets, w.past;
    }

    /** Others run while a call waits between two of its own commands. */
    method Wait(call: nat, others: seq<Step>)
      requires Valid() && Keyed(View()) && call in flights && LeavesAlone(others, call)
      modifies parts
      ensures View() == Run(Next, old(View()), others) && Keyed(View())
      ensures call in flights && flights[call] == old(flights[call])
    {
      OthersLeaveFlight(View(), others, call);
      RunKeepsKeyed(View(), others);
      Pause(others);
    }

    /** The call's program counter moves. */
    method Mark(call: nat, pc: PC)
      requires call in flights
      modifies `flights
      ensures flights == old(flights)[call := old(flights[call]).(pc := pc)]
    {
      flights := flights[call := flights[call].(pc := pc)];
    }

    /** The event is the latest on the bus. */
    predicate LastPost(p: Posted)
      reads publisher
    {
      publisher.bus != [] && publisher.bus[|publisher.bus| - 1] == p
    }

    // ---- the commands, each with the pause before it ----

    ghost predicate At(call: nat, req: Request, pc: PC)
      reads this
    {
      call in flights && flights[call].req == req && flights[call].pc == pc
    }

    /** The call enters the system. */
    method Enter(call: nat, req: Request)
      requires Valid() && call !in flights && Keyed(View())
      modifies `flights
      ensures View() == Run(Next, old(View()), [Arrive(call, req)]) && Keyed(View())
      ensures At(call, req, Opening(req))
    {
      RunOne(Next, View(), Arrive(call, req));
      StepKeepsKeyed(View(), Arrive(call, req));
      flights := flights[call := Flight(req, Opening(req), 0, false)];
    }

    /** A claim of the task's lock. To the protocol an occupied key reported as an error is a claim without effect whose
        reply was lost. */
    method ClaimLock(call: nat, req: Request, m: Moment) returns (acquired: bool, failed: bool, ghost seen: Moment)
      requires Valid() && Keyed(View()) && At(call, req, Claiming) && LeavesAlone(m.others, call)
      modifies parts
      ensures View() == Next(Run(Next, old(View()), m.others), Advance(call, seen.fate)) && Keyed(View())
      ensures seen.others == m.others && (seen.fate == m.fate || (locker.nilIsError && failed && seen.fate.Lost?))
      ensures At(call, req,
                 if failed then Done(Failed(LockFailure)) else if !acquired then Done(Failed(TaskLocked)) else Reading)
    {
      Wait(call, m.others);
      var occupied := Lookup(locker.keys, LockKey(req.taskID)).Occupied(locker.now);
      seen := if locker.nilIsError && occupied then m.(fate := Lost(m.fate.Applied())) else m;
      StepKeepsKeyed(View(), Advance(call, seen.fate));
      ClaimStep(View(), call, seen.fate);
      acquired, failed := locker.SetNX(LockKey(req.taskID), call, LOCK_TTL, m.fate);
      if acquired { tickets := tickets + 1; }
      var pc := if failed then Done(Failed(LockFailure)) else if !acquired then Done(Failed(TaskLocked)) else Reading;
      var ticket := if acquired then tickets else flights[call].ticket;
      flights := flights[call := flights[call].(pc := pc, ticket := ticket)];
    }

    /** The deferred release. */
    method ReleaseLock(call: nat, req: Request, outcome: Outcome, m: Moment)
      requires Valid() && Keyed(View()) && At(call, req, Releasing(outcome)) && LeavesAlone(m.others, call)
      modifies parts
      ensures View() == Next(Run(Next, old(View()), m.others), Advance(call, m.fate)) && Keyed(View())
      ensures At(call, req, Done(outcome))
    {
      Wait(call, m.others);
      StepKeepsKeyed(View(), Advance(call, m.fate));
      locker.Del(LockKey(req.taskID), m.fate);
      Mark(call, Done(outcome));
    }

    /** FindByID for an assignment: on success the call goes on to check the assignee. */
    method LoadToAssign(call: nat, req: Request, m: Moment) returns (found: Outcome)
      requires Valid() && Keyed(View()) && req.Assign? && At(call, req, Reading) && LeavesAlone(m.others, call)
      modifies parts
      ensures View() == Next(Run(Next, old(View()), m.others), Advance(call, m.fate)) && Keyed(View())
      ensures found == Found(Run(Next, old(View()), m.others), req, m.fate)
      ensures found.Failed? ==> At(call, req, Releasing(found))
      ensures found.Ok? ==>
              call in flights && flights[call].pc.Checking? && At(call, req, Checking(flights[call].pc.copy))
                            && flights[call].pc.copy.task == found.task
    {
      Wait(call, m.others);
      StepKeepsKeyed(View(), Advance(call, m.fate));
      found := taskRepo.FindByID(req.companyID, req.taskID, m.fate);
      Mark(call, if found.Ok? then Checking(CopyOf(past, found.task, req.taskID)) else Releasing(found));
    }

    /** The assignee must be a user of the caller's company; the private copy then gets its new assignee. */
    method CheckAssignee(call: nat, req: Request, task: Task, m: Moment) returns (known: bool)
      requires Valid() && Keyed(View()) && req.Assign? && LeavesAlone(m.others, call)
      requires call in flights && flights[call].req == req && flights[call].pc.Checking? &&
               flights[call].pc.copy.task == task
      modifies parts
      ensures View() == Next(Run(Next, old(View()), m.others), Advance(call, m.fate)) && Keyed(View())
      ensures !known ==> At(call, req, Releasing(Failed(UserNotFound)))
      ensures known ==> At(call, req, Saving(old(flights[call].pc.copy), task.(assignedTo := Some(req.assignedTo))))
    {
      Wait(call, m.others);
      StepKeepsKeyed(View(), Advance(call, m.fate));
      known := userRepo.FindByID(req.companyID, req.assignedTo, m.fate);
      Mark(call, if known then Saving(flights[call].pc.copy, task.(assignedTo := Some(req.assignedTo)))
                 else Releasing(Failed(UserNotFound)));
    }

    /** FindByID for a status change or a field edit, with the local validation that follows it. */
    method LoadToEdit(call: nat, req: Request, m: Moment) returns (found: Outcome, edited: Outcome)
      requires Valid() && Keyed(View()) && (req.ChangeStatus? || req.Edit?) && At(call, req, Reading) &&
               LeavesAlone(m.others, call)
      modifies parts
      ensures View() == Next(Run(Next, old(View()), m.others), Advance(call, m.fate)) && Keyed(View())
      ensures found == Found(Run(Next, old(View()), m.others), req, m.fate)
      ensures found.Failed? ==> edited == found
      ensures found.Ok? ==> edited == Edited(found.task, req)
      ensures edited.Failed? ==> At(call, req, Done(edited))
      ensures edited.Ok? ==> call in flights && flights[call].pc.Saving? && flights[call].pc.copy.task == found.task
                             && At(call, req, Saving(flights[call].pc.copy, edited.task))
    {
      Wait(call, m.others);
      StepKeepsKeyed(View(), Advance(call, m.fate));
      found := taskRepo.FindByID(req.companyID, req.taskID, m.fate);
      edited := found;
      if found.Ok? {
        if req.ChangeStatus? { edited := MoveStatus(found.task, req); } else { edited := ApplyForm(found.task, req); }
      }
      Mark(call, if edited.Ok? then Saving(CopyOf(past, found.task, req.taskID), edited.task) else Done(edited));
    }

    /** Save the private copy over the row. */
    method SaveCopy(call: nat, req: Request, draft: Task, m: Moment) returns (failed: bool)
      requires Valid() && Keyed(View()) && !req.Create? && LeavesAlone(m.others, call)
      requires call in flights && flights[call].req == req && flights[call].pc.Saving? &&
               flights[call].pc.draft == draft
      modifies parts
      ensures View() == Next(Run(Next, old(View()), m.others), Advance(call, m.fate)) && Keyed(View())
      ensures failed == m.fate.Lost?
      ensures failed ==> At(call, req, Leave(req, Failed(StorageFailure)))
      ensures !failed ==>
              At(call, req, if req.Edit? then Done(Ok(draft)) else Publishing(old(flights[call].pc.copy), draft))
    {
      Wait(call, m.others);
      assert KeyedFlight(flights[call]);
      StepKeepsKeyed(View(), Advance(call, m.fate));
      failed := taskRepo.Update(draft, m.fate);
      var f := flights[call];
      if m.fate.Applied() { past := Recorded(past, req.taskID, f.pc.copy, Entry(call, req)); }
      var pc := if failed then Leave(req, Failed(StorageFailure))
                else if req.Edit? then Done(Ok(draft)) else Publishing(f.pc.copy, draft);
      flights := flights[call := f.(pc := pc, committed := f.committed || m.fate.Applied())];
    }

    /** Publish the event; a lost event does not fail the call. */
    method Announce(call: nat, req: Request, event: Event, task: Task, m: Moment)
      requires Valid() && Keyed(View()) && (req.Assign? || req.ChangeStatus?) && LeavesAlone(m.others, call)
      requires call in flights && flights[call].req == req && flights[call].pc.Publishing? &&
               flights[call].pc.draft == task
      requires event == EventOf(flights[call].pc.copy, req)
      modifies parts
      ensures View() == Next(Run(Next, old(View()), m.others), Advance(call, m.fate)) && Keyed(View())
      ensures At(call, req, Leave(req, Ok(task)))
      ensures m.fate.Applied() ==> LastPost(Posted(call, event))
    {
      Wait(call, m.others);
      StepKeepsKeyed(View(), Advance(call, m.fate));
      publisher.Publish(call, event, m.fate);
      Mark(call, Leave(req, Ok(task)));
    }

    /** The project of a new task must belong to the caller's company. */
    method CheckProject(call: nat, req: Request, m: Moment) returns (outcome: Outcome)
      requires Valid() && Keyed(View()) && req.Create? && At(call, req, Vetting) && LeavesAlone(m.others, call)
      modifies parts
      ensures View() == Next(Run(Next, old(View()), m.others), Advance(call, m.fate)) && Keyed(View())
      ensures outcome.Failed? ==> At(call, req, Done(outcome))
      ensures outcome.Ok? ==> At(call, req, Inserting(outcome.task)) && outcome.task == NewTask(req)
      ensures outcome == Failed(InvalidInput) ==> req.form.dueDate.BadDate?
      ensures outcome == Failed(StorageFailure) <==> m.fate.Lost?
      ensures outcome == Failed(NotFound) <==>
              m.fate.Answered? &&
              !(req.projectID in projectRepo.members && projectRepo.members[req.projectID].company == req.companyID &&
                !projectRepo.members[req.projectID].deleted)
    {
      Wait(call, m.others);
      StepKeepsKeyed(View(), Advance(call, m.fate));
      var found := projectRepo.FindByID(req.companyID, req.projectID, m.fate);
      if !found {
        outcome := Failed(if m.fate.Lost? then StorageFailure else NotFound);
        Mark(call, Done(outcome));
        return;
      }
      outcome := BuildTask(req);
      Mark(call, if outcome.Ok? then Inserting(outcome.task) else Done(outcome));
    }

    method InsertTask(call: nat, req: Request, task: Task, m: Moment) returns (failed: bool)
      requires Valid() && Keyed(View()) && req.Create? && At(call, req, Inserting(task)) && LeavesAlone(m.others, call)
      modifies parts
      ensures View() == Next(Run(Next, old(View()), m.others), Advance(call, m.fate)) && Keyed(View())
      ensures At(call, req, Done(if failed then Failed(StorageFailure) else Ok(task)))
      ensures !failed ==> m.fate.Answered? && task.id in taskRepo.rows && taskRepo.rows[task.id] == task
    {
      Wait(call, m.others);
      assert KeyedFlight(flights[call]);
      StepKeepsKeyed(View(), Advance(call, m.fate));
      var unused := task.id !in taskRepo.rows;
      failed := taskRepo.Create(task, m.fate);
      var f := flights[call];
      var inserted := unused && m.fate.Applied();
      if inserted && task.id !in past { past := past[task.id := Provenance(call, task, [], [])]; }
      flights := flights[call := f.(pc := Done(if failed then Failed(StorageFailure) else Ok(task)),
                                    committed := f.committed || inserted)];
    }

    // ---- the use cases ----

    /** AssignTask: claim, and whatever happens from there on, release. */
    method AssignTask(call: nat, req: Request, script: seq<Moment>) returns (outcome: Outcome, ghost steps: seq<Step>)
      requires Valid() && Keyed(View()) && req.Assign? && call !in flights
      requires |script| == 6 && forall k | 0 <= k < |script| :: LeavesAlone(script[k].others, call)
      modifies parts
      ensures View() == Run(Next, old(View()), steps) && OwnRun(steps, call, req) && Keyed(View())
      ensures At(call, req, Done(outcome))
      ensures outcome == Failed(InvalidInput) <==>
                req.taskID == "" || req.companyID == "" || req.assignedTo == "" || req.assignedBy == ""
      ensures outcome.Ok? ==> outcome.task.assignedTo == Some(req.assignedTo)
    {
      Enter(call, req);
      steps := [Arrive(call, req)];
      if req.taskID == "" || req.companyID == "" || req.assignedTo == "" || req.assignedBy == "" {
        return Failed(InvalidInput), steps;
      }
      var acquired, failed;
      ghost var seen;
      acquired, failed, seen := ClaimLock(call, req, script[0]);
      RunThen(old(View()), steps, call, req, seen);
      steps := Then(steps, call, seen);
      if failed { return Failed(LockFailure), steps; }
      if !acquired { return Failed(TaskLocked), steps; }

      outcome, steps := AssignAndRelease(call, req, script[1..], old(View()), steps);
    }

    /** AssignTask after its claim, with the deferred release. */
    method AssignAndRelease(call: nat, req: Request, script: seq<Moment>, ghost origin: World, ghost before: seq<Step>)
      returns (outcome: Outcome, ghost steps: seq<Step>)
      requires Valid() && Keyed(View()) && req.Assign? && At(call, req, Reading)
      requires View() == Run(Next, origin, before) && OwnRun(before, call, req)
      requires |script| == 5 && forall k | 0 <= k < |script| :: LeavesAlone(script[k].others, call)
      modifies parts
      ensures View() == Run(Next, origin, steps) && OwnRun(steps, call, req) && Keyed(View())
      ensures At(call, req, Done(outcome)) && outcome != Failed(InvalidInput)
      ensures outcome.Ok? ==> outcome.task.assignedTo == Some(req.assignedTo)
    {
      ghost var inside;
      outcome, inside := AssignLocked(call, req, script[..4]);
      RunConcat(Next, origin, before, inside);
      steps := before + inside;
      RunThen(origin, steps, call, req, script[4]);
      ReleaseLock(call, req, outcome, script[4]);
      steps := Then(steps, call, script[4]);
    }

    /** AssignTask between its claim and its deferred release. */
    method AssignLocked(call: nat, req: Request, script: seq<Moment>) returns (outcome: Outcome, ghost steps: seq<Step>)
      requires Valid() && Keyed(View()) && req.Assign? && At(call, req, Reading)
      requires |script| == 4 && forall k | 0 <= k < |script| :: LeavesAlone(script[k].others, call)
      modifies parts
      ensures View() == Run(Next, old(View()), steps) && OwnRun(steps, call, req) && Keyed(View())
      ensures At(call, req, Releasing(outcome)) && outcome != Failed(InvalidInput)
      ensures outcome.Ok? ==> outcome.task.assignedTo == Some(req.assignedTo)
      ensures outcome.Ok? && script[3].fate.Applied() ==>
                LastPost(Posted(call, TaskAssigned(req.taskID, req.assignedTo, req.assignedBy)))
    {
      steps := [];
      RunThen(old(View()), steps, call, req, script[0]);
      var found := LoadToAssign(call, req, script[0]);
      steps := Then(steps, call, script[0]);
      if found.Failed? { return found, steps; }
      var task := found.task;

      RunThen(old(View()), steps, call, req, script[1]);
      var known := CheckAssignee(call, req, task, script[1]);
      steps := Then(steps, call, script[1]);
      if !known { return Failed(UserNotFound), steps; }
      task := task.(assignedTo := Some(req.assignedTo));

      RunThen(old(View()), steps, call, req, script[2]);
      var failed := SaveCopy(call, req, task, script[2]);
      steps := Then(steps, call, script[2]);
      if failed { return Failed(StorageFailure), steps; }

      RunThen(old(View()), steps, call, req, script[3]);
      Announce(call, req, TaskAssigned(req.taskID, req.assignedTo, req.assignedBy), task, script[3]);
      steps := Then(steps, call, script[3]);
      return Ok(task), steps;
    }

    /** UpdateTaskStatus: no lock; read, validate, save, announce. */
    method UpdateTaskStatus(call: nat, req: Request, script: seq<Moment>)
      returns (outcome: Outcome, ghost read: Outcome, ghost steps: seq<Step>)
      requires Valid() && Keyed(View()) && req.ChangeStatus? && call !in flights
      requires |script| == 3 && forall k | 0 <= k < |script| :: LeavesAlone(script[k].others, call)
      modifies parts
      ensures View() == Run(Next, old(View()), steps) && OwnRun(steps, call, req) && Keyed(View())
      ensures At(call, req, Done(outcome))
      ensures outcome == Failed(InvalidInput) <==>
                req.taskID == "" || req.companyID == "" || req.newStatus == Unknown("") || req.changedBy == ""
      ensures outcome != Failed(InvalidInput) ==>
                && read == Found(Run(Next, old(View()), [Arrive(call, req)] + script[0].others), req, script[0].fate)
                && outcome == ChangeAnswer(read, req, script[1].fate)
      ensures outcome.Ok? && script[2].fate.Applied() ==>
                read.Ok? &&
                LastPost(Posted(call, StatusChanged(req.taskID, read.task.status, req.newStatus, req.changedBy)))
    {
      if req.taskID == "" || req.companyID == "" || req.newStatus == Unknown("") || req.changedBy == "" {
        Enter(call, req);
        return Failed(InvalidInput), Failed(InvalidInput), [Arrive(call, req)];
      }
      var found, moved;
      found, moved, steps := ReadChange(call, req, script[0]);
      read := found;
      ChangeRules(found, req, moved, script[1].fate);
      if moved.Failed? { return moved, read, steps; }

      outcome, steps := SaveChange(call, req, found.task.status, moved.task, script[1..], old(View()), steps);
    }

    /** The first part of UpdateTaskStatus: read the row, and check the move against the two maps. */
    method ReadChange(call: nat, req: Request, m: Moment)
      returns (found: Outcome, moved: Outcome, ghost steps: seq<Step>)
      requires Valid() && Keyed(View()) && req.ChangeStatus? && call !in flights && WellFormed(req)
      requires LeavesAlone(m.others, call)
      modifies parts
      ensures View() == Run(Next, old(View()), steps) && OwnRun(steps, call, req) && Keyed(View())
      ensures found == Found(Run(Next, old(View()), [Arrive(call, req)] + m.others), req, m.fate)
      ensures moved == if found.Ok? then Edited(found.task, req) else found
      ensures moved.Failed? ==> At(call, req, Done(moved))
      ensures moved.Ok? ==> call in flights && flights[call].pc.Saving? && flights[call].pc.copy.task == found.task
                            && At(call, req, Saving(flights[call].pc.copy, moved.task))
    {
      Enter(call, req);
      steps := [Arrive(call, req)];
      RunThen(old(View()), steps, call, req, m);
      RunConcat(Next, old(View()), steps, m.others);
      found, moved := LoadToEdit(call, req, m);
      steps := Then(steps, call, m);
    }

    /** The rest of UpdateTaskStatus: save the row with its new status, and announce the change. */
    method SaveChange(call: nat, req: Request, oldStatus: Status, task: Task, script: seq<Moment>,
                      ghost origin: World, ghost before: seq<Step>)
      returns (outcome: Outcome, ghost steps: seq<Step>)
      requires Valid() && Keyed(View()) && req.ChangeStatus? && call in flights && flights[call].pc.Saving?
      requires View() == Run(Next, origin, before) && OwnRun(before, call, req)
      requires At(call, req, Saving(flights[call].pc.copy, task)) && flights[call].pc.copy.task.status == oldStatus
      requires |script| == 2 && forall k | 0 <= k < |script| :: LeavesAlone(script[k].others, call)
      modifies parts
      ensures View() == Run(Next, origin, steps) && OwnRun(steps, call, req) && Keyed(View())
      ensures At(call, req, Done(outcome))
      ensures outcome == if script[0].fate.Lost? then Failed(StorageFailure) else Ok(task)
      ensures outcome.Ok? && script[1].fate.Applied() ==>
                LastPost(Posted(call, StatusChanged(req.taskID, oldStatus, req.newStatus, req.changedBy)))
    {
      steps := before;
      RunThen(origin, steps, call, req, script[0]);
      var failed := SaveCopy(call, req, task, script[0]);
      steps := Then(steps, call, script[0]);
      if failed { return Failed(StorageFailure), steps; }

      RunThen(origin, steps, call, req, script[1]);
      Announce(call, req, StatusChanged(req.taskID, oldStatus, req.newStatus, req.changedBy), task, script[1]);
      steps := Then(steps, call, script[1]);
      return Ok(task), steps;
    }

    /** UpdateTask: no lock, no event; read, set the given fields, save. */
    method UpdateTask(call: nat, req: Request, script: seq<Moment>) returns (outcome: Outcome, ghost steps: seq<Step>)
      requires Valid() && Keyed(View()) && req.Edit? && call !in flights
      requires |script| == 2 && forall k | 0 <= k < |script| :: LeavesAlone(script[k].others, call)
      modifies parts
      ensures View() == Run(Next, old(View()), steps) && OwnRun(steps, call, req) && Keyed(View())
      ensures At(call, req, Done(outcome))
    {
      Enter(call, req);
      steps := [Arrive(call, req)];
      RunThen(old(View()), steps, call, req, script[0]);
      var _, revised := LoadToEdit(call, req, script[0]);
      steps := Then(steps, call, script[0]);
      if revised.Failed? { return revised, steps; }

      RunThen(old(View()), steps, call, req, script[1]);
      var failed := SaveCopy(call, req, revised.task, script[1]);
      steps := Then(steps, call, script[1]);
      if failed { return Failed(StorageFailure), steps; }
      return revised, steps;
    }

    /** CreateTask: check the project, build the row, insert it under its new id. */
    method CreateTask(call: nat, req: Request, script: seq<Moment>) returns (outcome: Outcome, ghost steps: seq<Step>)
      requires Valid() && Keyed(View()) && req.Create? && call !in flights
      requires |script| == 2 && forall k | 0 <= k < |script| :: LeavesAlone(script[k].others, call)
      modifies parts
      ensures View() == Run(Next, old(View()), steps) && OwnRun(steps, call, req) && Keyed(View())
      ensures At(call, req, Done(outcome))
      ensures req.form.title == "" || req.companyID == "" || req.projectID == "" || req.createdBy == "" ==>
                outcome == Failed(InvalidInput)
      ensures outcome == Failed(InvalidInput) ==>
                req.form.title == "" || req.companyID == "" || req.projectID == "" || req.createdBy == "" ||
                req.form.dueDate.BadDate?
      ensures outcome.Ok? ==> outcome.task == NewTask(req)
    {
      Enter(call, req);
      steps := [Arrive(call, req)];
      if req.form.title == "" || req.companyID == "" || req.projectID == "" || req.createdBy == "" {
        return Failed(InvalidInput), steps;
      }
      RunThen(old(View()), steps, call, req, script[0]);
      var built := CheckProject(call, req, script[0]);
      steps := Then(steps, call, script[0]);
      if built.Failed? { return built, steps; }

      RunThen(old(View()), steps, call, req, script[1]);
      var failed := InsertTask(call, req, built.task, script[1]);
      steps := Then(steps, call, script[1]);
      if failed { return Failed(StorageFailure), steps; }
      return built, steps;
    }
  }
}
