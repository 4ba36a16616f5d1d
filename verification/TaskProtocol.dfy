/** The task service as one state machine: many calls in flight, each with a program counter and a private
    copy of the row it read, over one lock store, one task table and one event bus. */
module TaskProtocol {
  import opened Prelude
  import opened KeyStore
  import opened Runs
  import opened TaskModel

  const LOCK_TTL: int := 5

  /** A row as it was read, with the history that produced it and the number of saves made before the read. */
  datatype Copy = Copy(task: Task, history: seq<Entry>, seen: nat)

  datatype PC =
    | Claiming                          // before SETNX (assign only)
    | Reading                           // before FindByID
    | Checking(copy: Copy)              // before the assignee lookup (assign only)
    | Saving(copy: Copy, draft: Task)   // before the whole-row save
    | Publishing(copy: Copy, draft: Task)
    | Releasing(outcome: Outcome)       // before the deferred DEL (assign only)
    | Vetting                           // before the project lookup (create only)
    | Inserting(draft: Task)            // before the insert (create only)
    | Done(outcome: Outcome)

  datatype Flight = Flight(req: Request, pc: PC, ticket: nat, committed: bool)

  datatype Event =
    | TaskAssigned(taskID: string, assignedTo: string, assignedBy: string)
    | StatusChanged(taskID: string, oldStatus: Status, newStatus: Status, changedBy: string)

  /** An event on the bus, tagged with the call that published it. */
  datatype Posted = Posted(call: nat, event: Event)

  /** What the proofs remember of a row: who created it and as what, the history its present content comes
      from, and every save made to it in order. */
  datatype Provenance = Provenance(creator: nat, root: Task, history: seq<Entry>, commits: seq<Entry>)

  /** A user or project record; deletion is soft and keeps the company. */
  datatype Member = Member(company: string, deleted: bool)

  datatype World = World(
    now: int,
    locks: map<string, Slot<nat>>,    // the value of a lock is the call that set it
    rows: map<string, Task>,
    users: map<string, Member>,
    projects: map<string, Member>,
    bus: seq<Posted>,
    flights: map<nat, Flight>,
    tickets: nat,                     // successful lock claims so far
    past: map<string, Provenance>)

  datatype Step =
    | Arrive(call: nat, req: Request)
    | Advance(call: nat, fate: Fate)
    | Crash(call: nat)
    | Tick(seconds: nat)
    | Enrol(user: string, company: string)
    | Dismiss(user: string)
    | OpenProject(project: string, company: string)
    | CloseProject(project: string)

  function Start(now: int): World
  {
    World(now, map[], map[], map[], map[], [], map[], 0, map[])
  }

  function LockKey(taskID: string): string { "lock:task:assign:" + taskID }

  lemma LockKeysDiffer(a: string, b: string)
    ensures LockKey(a) == LockKey(b) <==> a == b
  {
    var p := |"lock:task:assign:"|;
    assert LockKey(a)[p..] == a && LockKey(b)[p..] == b;
  }

  predicate Present(directory: map<string, Member>, id: string, company: string)
  {
    id in directory && directory[id].company == company && !directory[id].deleted
  }

  predicate Visible(w: World, req: Request)
  {
    req.taskID in w.rows && w.rows[req.taskID].companyID == req.companyID
  }

  /** The program counter of a call that has just arrived. */
  function Opening(req: Request): PC
  {
    if !WellFormed(req) then Done(Failed(InvalidInput))
    else
      match req
      case Create(_, _, _, _, _) => Vetting
      case Assign(_, _, _, _) => Claiming
      case ChangeStatus(_, _, _, _, _) => Reading
      case Edit(_, _, _) => Reading
  }

  /** Leaving early: an assign call still has its deferred DEL to do. */
  function Leave(req: Request, outcome: Outcome): PC
  {
    if req.Assign? then Releasing(outcome) else Done(outcome)
  }

  function AfterClaim(w: World, req: Request, fate: Fate): PC
  {
    if fate.Lost? then Done(Failed(LockFailure))
    else if Lookup(w.locks, LockKey(req.taskID)).Occupied(w.now) then Done(Failed(TaskLocked))
    else Reading
  }

  function PastOf(past: map<string, Provenance>, t: string, row: Task): Provenance
  {
    if t in past then past[t] else Provenance(0, row, [], [])
  }

  function CopyOf(past: map<string, Provenance>, row: Task, t: string): Copy
  {
    var p := PastOf(past, t, row);
    Copy(row, p.history, |p.commits|)
  }

  /** A save is recorded: the saver's copy, with the saver's edit on top, becomes the row's history. */
  function Recorded(past: map<string, Provenance>, t: string, copy: Copy, e: Entry): map<string, Provenance>
  {
    var p := PastOf(past, t, copy.task);
    past[t := p.(history := copy.history + [e], commits := p.commits + [e])]
  }

  function AfterRead(w: World, req: Request, fate: Fate): PC
  {
    if fate.Lost? then Leave(req, Failed(StorageFailure))
    else if !Visible(w, req) then Leave(req, Failed(NotFound))
    else
      var copy := CopyOf(w.past, w.rows[req.taskID], req.taskID);
      if req.Assign? then Checking(copy) else AfterEdit(copy, req)
  }

  /** Status changes and field edits are validated and applied to the private copy right after the read. */
  function AfterEdit(copy: Copy, req: Request): PC
  {
    var edited := Edited(copy.task, req);
    if edited.Ok? then Saving(copy, edited.task) else Done(edited)
  }

  function AfterCheck(w: World, req: Request, copy: Copy, fate: Fate): PC
    requires req.Assign?
  {
    if fate.Lost? || !Present(w.users, req.assignedTo, req.companyID) then Releasing(Failed(UserNotFound))
    else Saving(copy, Edited(copy.task, req).task)
  }

  /** A save overwrites every column with the draft, whatever the row holds by now. */
  function AfterSave(req: Request, copy: Copy, draft: Task, fate: Fate): PC
  {
    if fate.Lost? then Leave(req, Failed(StorageFailure))
    else if req.Edit? then Done(Ok(draft))
    else Publishing(copy, draft)
  }

  function AfterVetting(w: World, req: Request, fate: Fate): PC
    requires req.Create?
  {
    if fate.Lost? then Done(Failed(StorageFailure))
    else if !Present(w.projects, req.projectID, req.companyID) then Done(Failed(NotFound))
    else if req.form.dueDate.BadDate? then Done(Failed(InvalidInput))
    else Inserting(NewTask(req))
  }

  /** An insert fails if the id is taken. */
  function AfterInsert(w: World, req: Request, draft: Task, fate: Fate): PC
  {
    Done(if req.taskID in w.rows || fate.Lost? then Failed(StorageFailure) else Ok(draft))
  }

  /** Where a call is after its next remote command and the local work that follows it. */
  function PCAfter(w: World, f: Flight, fate: Fate): PC
  {
    match f.pc
    case Claiming => AfterClaim(w, f.req, fate)
    case Reading => AfterRead(w, f.req, fate)
    case Checking(copy) => if f.req.Assign? then AfterCheck(w, f.req, copy, fate) else f.pc
    case Saving(copy, draft) => AfterSave(f.req, copy, draft, fate)
    case Publishing(_, draft) => Leave(f.req, Ok(draft))
    case Releasing(outcome) => Done(outcome)
    case Vetting => if f.req.Create? then AfterVetting(w, f.req, fate) else f.pc
    case Inserting(draft) => AfterInsert(w, f.req, draft, fate)
    case Done(_) => f.pc
  }

  /** The command takes effect on the task's row. */
  predicate Writes(w: World, f: Flight, fate: Fate)
  {
    fate.Applied() && (f.pc.Saving? || (f.pc.Inserting? && f.req.taskID !in w.rows))
  }

  predicate Claims(w: World, f: Flight, fate: Fate)
  {
    f.pc.Claiming? && AfterClaim(w, f.req, fate).Reading?
  }

  /** SETNX sets a free lock; the deferred DEL removes the lock, whoever holds it by now. */
  function LocksAfter(w: World, call: nat, f: Flight, fate: Fate): map<string, Slot<nat>>
  {
    var key := LockKey(f.req.taskID);
    if fate.Applied() && f.pc.Claiming? then w.locks[key := SetNX(Lookup(w.locks, key), call, LOCK_TTL, w.now)]
    else if fate.Applied() && f.pc.Releasing? then w.locks[key := Empty]
    else w.locks
  }

  function RowsAfter(w: World, f: Flight, fate: Fate): map<string, Task>
  {
    if Writes(w, f, fate) then w.rows[f.req.taskID := f.pc.draft] else w.rows
  }

  function PastAfter(w: World, call: nat, f: Flight, fate: Fate): map<string, Provenance>
  {
    if !Writes(w, f, fate) then w.past
    else if f.pc.Saving? then Recorded(w.past, f.req.taskID, f.pc.copy, Entry(call, f.req))
    else if f.req.taskID in w.past then w.past
    else w.past[f.req.taskID := Provenance(call, f.pc.draft, [], [])]
  }

  function EventOf(copy: Copy, req: Request): Event
    requires req.Assign? || req.ChangeStatus?
  {
    match req
    case Assign(t, _, assignedTo, assignedBy) => TaskAssigned(t, assignedTo, assignedBy)
    case ChangeStatus(t, _, newStatus, changedBy, _) => StatusChanged(t, copy.task.status, newStatus, changedBy)
  }

  predicate Posts(f: Flight, fate: Fate)
  {
    fate.Applied() && f.pc.Publishing? && (f.req.Assign? || f.req.ChangeStatus?)
  }

  function BusAfter(w: World, call: nat, f: Flight, fate: Fate): seq<Posted>
  {
    if Posts(f, fate) then w.bus + [Posted(call, EventOf(f.pc.copy, f.req))] else w.bus
  }

  function FlightAfter(w: World, f: Flight, fate: Fate): Flight
  {
    f.(pc := PCAfter(w, f, fate),
       ticket := if Claims(w, f, fate) then w.tickets + 1 else f.ticket,
       committed := f.committed || Writes(w, f, fate))
  }

  /** One call performs its next remote command. */
  function Advanced(w: World, call: nat, fate: Fate): World
  {
    if call !in w.flights then w
    else
      var f := w.flights[call];
      w.(locks := LocksAfter(w, call, f, fate),
         rows := RowsAfter(w, f, fate),
         past := PastAfter(w, call, f, fate),
         bus := BusAfter(w, call, f, fate),
         tickets := if Claims(w, f, fate) then w.tickets + 1 else w.tickets,
         flights := w.flights[call := FlightAfter(w, f, fate)])
  }

  function Crashed(w: World, call: nat): World
  {
    if call in w.flights && !w.flights[call].pc.Done?
    then w.(flights := w.flights[call := w.flights[call].(pc := Done(Failed(Stopped)))])
    else w
  }

  function UsersAfter(users: map<string, Member>, s: Step): map<string, Member>
  {
    match s
    case Enrol(user, company) => if user in users then users else users[user := Member(company, false)]
    case Dismiss(user) => if user in users then users[user := users[user].(deleted := true)] else users
    case _ => users
  }

  function ProjectsAfter(projects: map<string, Member>, s: Step): map<string, Member>
  {
    match s
    case OpenProject(project, company) =>
      if project in projects then projects else projects[project := Member(company, false)]
    case CloseProject(project) =>
      if project in projects then projects[project := projects[project].(deleted := true)] else projects
    case _ => projects
  }

  /** What the rest of the world does: time passes, people and projects come and go. */
  function Elsewhere(w: World, s: Step): World
  {
    w.(now := if s.Tick? then w.now + s.seconds else w.now,
       users := UsersAfter(w.users, s),
       projects := ProjectsAfter(w.projects, s))
  }

  function Next(w: World, s: Step): World
  {
    match s
    case Arrive(call, req) =>
      if call in w.flights then w else w.(flights := w.flights[call := Flight(req, Opening(req), 0, false)])
    case Advance(call, fate) => Advanced(w, call, fate)
    case Crash(call) => Crashed(w, call)
    case _ => Elsewhere(w, s)
  }

  // ---- one call's step leaves the other calls where they are ----

  predicate Mentions(s: Step, call: nat)
  {
    (s.Arrive? || s.Advance? || s.Crash?) && s.call == call
  }

  lemma AdvanceLeavesFlight(w: World, other: nat, fate: Fate, call: nat)
    requires other != call
    ensures var w' := Advanced(w, other, fate);
            (call in w'.flights <==> call in w.flights) && (call in w.flights ==> w'.flights[call] == w.flights[call])
  {
  }

  lemma StepLeavesFlight(w: World, s: Step, call: nat)
    requires !Mentions(s, call)
    ensures var w' := Next(w, s);
            (call in w'.flights <==> call in w.flights) && (call in w.flights ==> w'.flights[call] == w.flights[call])
  {
    if s.Advance? { AdvanceLeavesFlight(w, s.call, s.fate, call); }
  }

  // ---- rows are stored under their own id ----

  predicate KeyedFlight(f: Flight)
  {
    match f.pc
    case Checking(copy) => copy.task.id == f.req.taskID
    case Saving(_, draft) => draft.id == f.req.taskID
    case Inserting(draft) => draft.id == f.req.taskID
    case _ => true
  }

  ghost predicate Keyed(w: World)
  {
    && (forall t | t in w.rows :: w.rows[t].id == t)
    && (forall c | c in w.flights :: KeyedFlight(w.flights[c]))
  }

  lemma MovedFlightIsKeyed(w: World, f: Flight, fate: Fate)
    requires KeyedFlight(f) && forall t | t in w.rows :: w.rows[t].id == t
    ensures KeyedFlight(FlightAfter(w, f, fate))
  {
    match f.pc
    case Reading => assert Visible(w, f.req) ==> w.rows[f.req.taskID].id == f.req.taskID;
    case _ =>
  }

  lemma StepKeepsKeyed(w: World, s: Step)
    requires Keyed(w)
    ensures Keyed(Next(w, s))
  {
    if s.Advance? && s.call in w.flights {
      assert KeyedFlight(w.flights[s.call]);
      MovedFlightIsKeyed(w, w.flights[s.call], s.fate);
    }
  }

  lemma {:induction false} RunKeepsKeyed(w: World, steps: seq<Step>)
    requires Keyed(w)
    ensures Keyed(Run(Next, w, steps))
  {
    if steps != [] {
      RunKeepsKeyed(w, steps[..|steps| - 1]);
      StepKeepsKeyed(Run(Next, w, steps[..|steps| - 1]), steps[|steps| - 1]);
    }
  }
}
