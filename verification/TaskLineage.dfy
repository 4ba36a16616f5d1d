/** Every row ever stored, and every copy a call holds, is the result of a legal sequential history,
    under any interleaving and with lost updates; and no update is lost exactly when every save
    overwrites the version it read. */
module TaskLineage {
  import opened Prelude
  import opened Runs
  import opened TaskModel
  import opened TaskProtocol

  predicate Belongs(directory: map<string, Member>, id: string, company: string)
  {
    id in directory && directory[id].company == company
  }

  /** The entry is a committed call on this task, made from the task's own company, and an assignment names a
      member of that company. */
  ghost predicate Vouched(w: World, t: string, e: Entry)
  {
    && e.call in w.flights && w.flights[e.call].req == e.req && w.flights[e.call].committed
    && e.req.taskID == t && !e.req.Create?
    && t in w.past && e.req.companyID == w.past[t].root.companyID
    && (e.req.Assign? ==> Belongs(w.users, e.req.assignedTo, e.req.companyID))
  }

  ghost predicate AllVouched(w: World, t: string, history: seq<Entry>)
  {
    && (forall k | 0 <= k < |history| :: Vouched(w, t, history[k]))
    && (forall i, j | 0 <= i < j < |history| :: history[i].call != history[j].call)
  }

  /** The row is what some of the committed calls on t, each at most once, make of t's created row when they run
      one after another. */
  ghost predicate Lineage(w: World, t: string, row: Task, history: seq<Entry>)
  {
    && t in w.past
    && Replay(w.past[t].root, history) == Ok(row)
    && AllVouched(w, t, history)
  }

  /** The created row is exactly what a committed create call asked for, in a project of its company. */
  ghost predicate Rooted(w: World, t: string)
    requires t in w.past
  {
    var p := w.past[t];
    && p.creator in w.flights && w.flights[p.creator].committed
    && w.flights[p.creator].req.Create? && w.flights[p.creator].req.taskID == t
    && p.root == NewTask(w.flights[p.creator].req)
    && Belongs(w.projects, p.root.projectID, p.root.companyID)
  }

  ghost predicate RowOk(w: World, t: string)
    requires t in w.past
  {
    && t in w.rows
    && Rooted(w, t)
    && Lineage(w, t, w.rows[t], w.past[t].history)
    && |w.past[t].history| <= |w.past[t].commits|
    && AllVouched(w, t, w.past[t].commits)
  }

  /** A copy is a version of the row; if nothing was saved since it was read, it is the current version. */
  ghost predicate CopyOk(w: World, t: string, c: Copy)
  {
    && Lineage(w, t, c.task, c.history)
    && |c.history| <= c.seen <= |w.past[t].commits|
    && (c.seen == |w.past[t].commits| ==> c.history == w.past[t].history)
  }

  ghost predicate Authorised(w: World, req: Request)
  {
    && req.taskID in w.past && !req.Create? && req.companyID == w.past[req.taskID].root.companyID
    && (req.Assign? ==> Belongs(w.users, req.assignedTo, req.companyID))
  }

  /** Success is only reported of a committed call; a failure other than a storage failure or a crash, of an
      uncommitted one. */
  ghost predicate Truthful(outcome: Outcome, committed: bool)
  {
    match outcome
    case Ok(_) => committed
    case Failed(error) => error == StorageFailure || error == Stopped || !committed
  }

  ghost predicate FlightOk(w: World, f: Flight)
  {
    var t := f.req.taskID;
    match f.pc
    case Claiming => !f.committed && f.req.Assign?
    case Reading => !f.committed && !f.req.Create?
    case Checking(copy) =>
      !f.committed && f.req.Assign? && CopyOk(w, t, copy) && f.req.companyID == w.past[t].root.companyID
    case Saving(copy, draft) =>
      !f.committed && CopyOk(w, t, copy) && Authorised(w, f.req) && Edited(copy.task, f.req) == Ok(draft)
    case Publishing(copy, draft) =>
      f.committed && (f.req.Assign? || f.req.ChangeStatus?) &&
      Lineage(w, t, copy.task, copy.history) && Authorised(w, f.req) && Edited(copy.task, f.req) == Ok(draft)
    case Vetting => !f.committed
    case Inserting(draft) =>
      !f.committed && f.req.Create? && draft == NewTask(f.req) && Belongs(w.projects, f.req.projectID, f.req.companyID)
    case Releasing(outcome) => f.req.Assign? && Truthful(outcome, f.committed)
    case Done(outcome) => Truthful(outcome, f.committed)
  }

  ghost predicate Good(w: World)
  {
    && (forall t :: t in w.rows <==> t in w.past)
    && (forall t | t in w.past :: RowOk(w, t))
    && (forall c | c in w.flights :: FlightOk(w, w.flights[c]))
  }

  // ---- what a step may not undo ----

  ghost predicate Grows(w: World, w': World)
  {
    && (forall c | c in w.flights ::
          c in w'.flights && w'.flights[c].req == w.flights[c].req &&
            (w.flights[c].committed ==> w'.flights[c].committed))
    && (forall t | t in w.past ::
          t in w'.past && w'.past[t].root == w.past[t].root && w'.past[t].creator == w.past[t].creator &&
          (w'.past[t] == w.past[t] || w.past[t].commits < w'.past[t].commits))
    && (forall u | u in w.users :: u in w'.users && w'.users[u].company == w.users[u].company)
    && (forall p | p in w.projects :: p in w'.projects && w'.projects[p].company == w.projects[p].company)
  }

  lemma PastGrows(w: World, call: nat, f: Flight, fate: Fate)
    ensures var past := PastAfter(w, call, f, fate);
            forall t | t in w.past ::
              t in past && past[t].root == w.past[t].root && past[t].creator == w.past[t].creator &&
              (past[t] == w.past[t] || w.past[t].commits < past[t].commits)
  {
  }

  lemma AdvanceGrows(w: World, call: nat, fate: Fate)
    ensures Grows(w, Advanced(w, call, fate))
  {
    if call in w.flights { PastGrows(w, call, w.flights[call], fate); }
  }

  lemma ElsewhereGrows(w: World, s: Step)
    ensures Grows(w, Elsewhere(w, s))
  {
  }

  lemma ArrivalGrows(w: World, call: nat, req: Request)
    ensures Grows(w, Next(w, Arrive(call, req)))
  {
  }

  lemma CrashGrows(w: World, call: nat)
    ensures Grows(w, Crashed(w, call))
  {
  }

  lemma NextGrows(w: World, s: Step)
    ensures Grows(w, Next(w, s))
  {
    match s
    case Advance(call, fate) => AdvanceGrows(w, call, fate);
    case Arrive(call, req) => ArrivalGrows(w, call, req);
    case Crash(call) => CrashGrows(w, call);
    case _ => ElsewhereGrows(w, s);
  }

  lemma FlightSurvives(w: World, w': World, f: Flight)
    requires Grows(w, w') && FlightOk(w, f)
    ensures FlightOk(w', f)
  {
  }

  lemma RowSurvives(w: World, w': World, t: string)
    requires t in w.past && Grows(w, w') && RowOk(w, t)
    requires t in w'.rows && w'.rows[t] == w.rows[t] && w'.past[t] == w.past[t]
    ensures RowOk(w', t)
  {
  }

  /** If a step leaves the rows alone, only the flight it moves needs looking at. */
  lemma OneFlightMoved(w: World, w': World, call: nat, f: Flight)
    requires Good(w) && Grows(w, w')
    requires w'.rows == w.rows && w'.past == w.past && w'.flights == w.flights[call := f]
    requires FlightOk(w', f)
    ensures Good(w')
  {
    forall t | t in w'.past ensures RowOk(w', t) { RowSurvives(w, w', t); }
    forall c | c in w'.flights && c != call ensures FlightOk(w', w'.flights[c]) { FlightSurvives(w, w', w.flights[c]); }
  }

  /** A step that touches one row and one flight leaves the others in order. */
  lemma OneRowMoved(w: World, w': World, t: string, row: Task, p: Provenance, call: nat, f: Flight)
    requires Good(w) && Grows(w, w')
    requires w'.rows == w.rows[t := row] && w'.past == w.past[t := p] && w'.flights == w.flights[call := f]
    requires RowOk(w', t) && FlightOk(w', f)
    ensures Good(w')
  {
    forall x | x in w'.past && x != t ensures RowOk(w', x) { RowSurvives(w, w', x); }
    forall c | c in w'.flights && c != call ensures FlightOk(w', w'.flights[c]) { FlightSurvives(w, w', w.flights[c]); }
  }

  /** A legal history never changes a row's identity, company, project or author. */
  lemma {:induction false} ReplayKeepsIdentity(root: Task, history: seq<Entry>)
    requires Replay(root, history).Ok?
    ensures var row := Replay(root, history).task;
            row.id == root.id && row.companyID == root.companyID && row.projectID == root.projectID &&
              row.createdBy == root.createdBy
  {
    if history != [] { ReplayKeepsIdentity(root, history[..|history| - 1]); }
  }

  // ---- commands that write no row ----

  lemma ReadKeeps(w: World, f: Flight, fate: Fate)
    requires f.pc.Reading? && FlightOk(w, f)
    requires Visible(w, f.req) ==> f.req.taskID in w.past && RowOk(w, f.req.taskID)
    ensures FlightOk(w, FlightAfter(w, f, fate))
  {
    if Visible(w, f.req) {
      ReplayKeepsIdentity(w.past[f.req.taskID].root, w.past[f.req.taskID].history);
    }
  }

  lemma CheckKeeps(w: World, f: Flight, fate: Fate)
    requires f.pc.Checking? && FlightOk(w, f)
    ensures FlightOk(w, FlightAfter(w, f, fate))
  {
  }

  lemma FailedWriteKeeps(w: World, f: Flight, fate: Fate)
    requires (f.pc.Saving? || f.pc.Inserting?) && FlightOk(w, f) && !Writes(w, f, fate)
    ensures FlightOk(w, FlightAfter(w, f, fate))
  {
  }

  lemma OtherCommandKeeps(w: World, f: Flight, fate: Fate)
    requires !f.pc.Reading? && !f.pc.Checking? && !f.pc.Saving? && !f.pc.Inserting? && FlightOk(w, f)
    ensures FlightOk(w, FlightAfter(w, f, fate))
  {
  }

  lemma QuietCommandKeeps(w: World, f: Flight, fate: Fate)
    requires FlightOk(w, f) && !Writes(w, f, fate)
    requires Visible(w, f.req) ==> f.req.taskID in w.past && RowOk(w, f.req.taskID)
    ensures FlightOk(w, FlightAfter(w, f, fate))
  {
    match f.pc
    case Reading => ReadKeeps(w, f, fate);
    case Checking(_) => CheckKeeps(w, f, fate);
    case Saving(_, _) => FailedWriteKeeps(w, f, fate);
    case Inserting(_) => FailedWriteKeeps(w, f, fate);
    case _ => OtherCommandKeeps(w, f, fate);
  }

  lemma QuietAdvanceKeeps(w: World, call: nat, fate: Fate)
    requires Good(w) && call in w.flights && !Writes(w, w.flights[call], fate)
    ensures Good(Advanced(w, call, fate))
  {
    var f := w.flights[call];
    assert FlightOk(w, f);
    QuietCommandKeeps(w, f, fate);
    AdvanceGrows(w, call, fate);
    FlightSurvives(w, Advanced(w, call, fate), FlightAfter(w, f, fate));
    OneFlightMoved(w, Advanced(w, call, fate), call, FlightAfter(w, f, fate));
  }

  // ---- commands that write a row ----

  /** What holds of a row that was just saved: the saver's history grew by the saver itself. */
  lemma SavedRowOk(w: World, w': World, t: string, f: Flight, e: Entry)
    requires t in w.past && t in w.rows && RowOk(w, t) && f.pc.Saving? && FlightOk(w, f) && f.req.taskID == t
    requires Grows(w, w') && t in w'.past && t in w'.rows
    requires e.req == f.req && e.call in w.flights && w.flights[e.call] == f
    requires e.call in w'.flights && w'.flights[e.call].committed
    requires w'.rows[t] == f.pc.draft
    requires w'.past[t] == w.past[t].(history := f.pc.copy.history + [e], commits := w.past[t].commits + [e])
    ensures RowOk(w', t)
  {
    var copy := f.pc.copy;
    ReplaySnoc(w.past[t].root, copy.history, e);
    assert forall k | 0 <= k < |copy.history| :: Vouched(w, t, copy.history[k]) && copy.history[k].call != e.call;
    assert forall k | 0 <= k < |w.past[t].commits| ::
           Vouched(w, t, w.past[t].commits[k]) && w.past[t].commits[k].call != e.call;
    assert Vouched(w', t, e);
  }

  lemma SavedFlightOk(w: World, w': World, f: Flight, fate: Fate)
    requires Grows(w, w') && f.pc.Saving? && FlightOk(w, f) && fate.Applied()
    ensures FlightOk(w', FlightAfter(w, f, fate))
  {
  }

  lemma SaveKeeps(w: World, call: nat, fate: Fate)
    requires Good(w) && call in w.flights && w.flights[call].pc.Saving? && fate.Applied()
    ensures Good(Advanced(w, call, fate))
  {
    var w' := Advanced(w, call, fate);
    var f := w.flights[call];
    var t := f.req.taskID;
    assert FlightOk(w, f) && RowOk(w, t);
    AdvanceGrows(w, call, fate);
    SavedRowOk(w, w', t, f, Entry(call, f.req));
    SavedFlightOk(w, w', f, fate);
    OneRowMoved(w, w', t, f.pc.draft, w'.past[t], call, FlightAfter(w, f, fate));
  }

  lemma InsertKeeps(w: World, call: nat, fate: Fate)
    requires Good(w) && call in w.flights && w.flights[call].pc.Inserting? && Writes(w, w.flights[call], fate)
    ensures Good(Advanced(w, call, fate))
  {
    var w' := Advanced(w, call, fate);
    var f := w.flights[call];
    assert FlightOk(w, f);
    AdvanceGrows(w, call, fate);
    OneRowMoved(w, w', f.req.taskID, f.pc.draft, Provenance(call, f.pc.draft, [], []), call, FlightAfter(w, f, fate));
  }

  lemma AdvanceKeeps(w: World, call: nat, fate: Fate)
    requires Good(w) && call in w.flights
    ensures Good(Advanced(w, call, fate))
  {
    if !Writes(w, w.flights[call], fate) { QuietAdvanceKeeps(w, call, fate); }
    else if w.flights[call].pc.Saving? { SaveKeeps(w, call, fate); }
    else { InsertKeeps(w, call, fate); }
  }

  lemma ArrivalKeeps(w: World, s: Step)
    requires Good(w) && s.Arrive?
    ensures Good(Next(w, s))
  {
    var w' := Next(w, s);
    if w' != w {
      OneFlightMoved(w, w', s.call, w'.flights[s.call]);
    }
  }

  lemma CrashKeeps(w: World, call: nat)
    requires Good(w)
    ensures Good(Crashed(w, call))
  {
    var w' := Crashed(w, call);
    if w' != w {
      OneFlightMoved(w, w', call, w'.flights[call]);
    }
  }

  lemma SurroundingsKeep(w: World, w': World)
    requires Good(w) && Grows(w, w')
    requires w'.past == w.past && w'.rows == w.rows && w'.flights == w.flights
    ensures Good(w')
  {
    forall t | t in w'.past ensures RowOk(w', t) { RowSurvives(w, w', t); }
    forall c | c in w'.flights ensures FlightOk(w', w'.flights[c]) { FlightSurvives(w, w', w.flights[c]); }
  }

  lemma ElsewhereKeeps(w: World, s: Step)
    requires Good(w)
    ensures Good(Elsewhere(w, s))
  {
    ElsewhereGrows(w, s);
    SurroundingsKeep(w, Elsewhere(w, s));
  }

  lemma NextKeeps(w: World, s: Step)
    requires Good(w)
    ensures Good(Next(w, s))
  {
    match s
    case Advance(call, fate) => if call in w.flights { AdvanceKeeps(w, call, fate); }
    case Arrive(_, _) => ArrivalKeeps(w, s);
    case Crash(call) => CrashKeeps(w, call);
    case _ => ElsewhereKeeps(w, s);
  }

  lemma {:induction false} RunIsGood(now: int, steps: seq<Step>)
    ensures Good(Run(Next, Start(now), steps))
  {
    if steps != [] {
      var before := steps[..|steps| - 1];
      RunIsGood(now, before);
      NextKeeps(Run(Next, Start(now), before), steps[|steps| - 1]);
    }
  }

  /** Whatever is stored, in any reachable state: the row is what a sequential, fully validated history of
      committed calls makes of the row that a committed create call asked for. */
  lemma StoredRowsHaveLegalHistories(now: int, steps: seq<Step>, t: string)
    requires t in Run(Next, Start(now), steps).rows
    ensures var w := Run(Next, Start(now), steps);
            t in w.past && Rooted(w, t) && Lineage(w, t, w.rows[t], w.past[t].history)
  {
    RunIsGood(now, steps);
    assert RowOk(Run(Next, Start(now), steps), t);
  }

  /** Every committed edit is among the saves of its task. */
  ghost predicate Recorded(w: World)
  {
    forall c | c in w.flights && w.flights[c].committed && !w.flights[c].req.Create? ::
      var t := w.flights[c].req.taskID;
      t in w.past && Entry(c, w.flights[c].req) in w.past[t].commits
  }

  lemma RecordSurvives(w: World, w': World, c: nat)
    requires Recorded(w) && Grows(w, w') && c in w.flights && w.flights[c].committed && !w.flights[c].req.Create?
    ensures var t := w.flights[c].req.taskID;
            t in w'.past && Entry(c, w.flights[c].req) in w'.past[t].commits
  {
    var commits := w.past[w.flights[c].req.taskID].commits;
    var k :| 0 <= k < |commits| && commits[k] == Entry(c, w.flights[c].req);
    assert w'.past[w.flights[c].req.taskID].commits[k] == commits[k];
  }

  lemma StepRecords(w: World, s: Step)
    requires Good(w) && Recorded(w)
    ensures Recorded(Next(w, s))
  {
    var w' := Next(w, s);
    NextGrows(w, s);
    forall c | c in w'.flights && w'.flights[c].committed && !w'.flights[c].req.Create?
      ensures w'.flights[c].req.taskID in w'.past &&
              Entry(c, w'.flights[c].req) in w'.past[w'.flights[c].req.taskID].commits
    {
      if c in w.flights && w.flights[c].committed {
        RecordSurvives(w, w', c);
      } else {
        if !Mentions(s, c) { StepLeavesFlight(w, s, c); }
        assert FlightOk(w, w.flights[c]);
        SaveRecords(w, c, s.fate);
      }
    }
  }

  lemma SaveRecords(w: World, call: nat, fate: Fate)
    requires call in w.flights && w.flights[call].pc.Saving? && fate.Applied()
    ensures var w' := Advanced(w, call, fate);
            var t := w.flights[call].req.taskID;
            t in w'.past && Entry(call, w.flights[call].req) in w'.past[t].commits
  {
  }

  lemma {:induction false} RunRecords(now: int, steps: seq<Step>)
    ensures Recorded(Run(Next, Start(now), steps))
  {
    if steps != [] {
      var before := steps[..|steps| - 1];
      RunRecords(now, before);
      RunIsGood(now, before);
      StepRecords(Run(Next, Start(now), before), steps[|steps| - 1]);
    }
  }

  /** What a finished call answers is what it did: success means its edit is among the saves of its task, and any
      failure but a storage failure or a crash means it saved nothing. */
  lemma AnswersAreTruthful(now: int, steps: seq<Step>, call: nat)
    requires var w := Run(Next, Start(now), steps);
             call in w.flights && w.flights[call].pc.Done? && !w.flights[call].req.Create?
    ensures var w := Run(Next, Start(now), steps);
            var f := w.flights[call];
            && (f.pc.outcome.Ok? ==> f.req.taskID in w.past && Entry(call, f.req) in w.past[f.req.taskID].commits)
            && (f.pc.outcome.Failed? && f.pc.outcome.error != StorageFailure && f.pc.outcome.error != Stopped ==>
                  forall t, e | t in w.past && e in w.past[t].commits :: e.call != call)
  {
    var w := Run(Next, Start(now), steps);
    RunIsGood(now, steps);
    RunRecords(now, steps);
    assert FlightOk(w, w.flights[call]);
    forall t, e | t in w.past && e in w.past[t].commits ensures w.flights[e.call].committed {
      assert RowOk(w, t);
    }
  }

  // ---- lost updates ----

  /** This step saves a copy of t although t was saved since the copy was read. */
  ghost predicate StaleSave(w: World, s: Step, t: string)
  {
    && s.Advance? && s.call in w.flights && s.fate.Applied()
    && w.flights[s.call].pc.Saving? && w.flights[s.call].req.taskID == t
    && t in w.past && w.flights[s.call].pc.copy.seen < |w.past[t].commits|
  }

  ghost function FreshSaves(t: string): (World, Step) -> bool
  {
    (w, s) => !StaleSave(w, s, t)
  }

  /** The row's history contains every save ever made to it, in order. */
  ghost predicate NothingLost(w: World, t: string)
  {
    t in w.past ==> w.past[t].history == w.past[t].commits
  }

  lemma SameButForTheLast(a: seq<Entry>, b: seq<Entry>, e: Entry)
    ensures a + [e] == b + [e] <==> a == b
  {
    if a + [e] == b + [e] {
      assert (a + [e])[..|b|] == a && (b + [e])[..|b|] == b;
    }
  }

  lemma SaveLosesOrNot(w: World, call: nat, fate: Fate, t: string)
    requires Good(w) && call in w.flights && w.flights[call].pc.Saving? && fate.Applied() &&
             w.flights[call].req.taskID == t
    ensures NothingLost(Advanced(w, call, fate), t) <==> NothingLost(w, t) && !StaleSave(w, Advance(call, fate), t)
  {
    var f := w.flights[call];
    assert FlightOk(w, f) && RowOk(w, t);
    var p := w.past[t];
    var e := Entry(call, f.req);
    SameButForTheLast(f.pc.copy.history, p.commits, e);
  }

  predicate SavesTask(w: World, s: Step, t: string)
  {
    && s.Advance? && s.call in w.flights && w.flights[s.call].pc.Saving? && s.fate.Applied()
    && w.flights[s.call].req.taskID == t
  }

  lemma OtherStepsLoseNothing(w: World, s: Step, t: string)
    requires !SavesTask(w, s, t)
    ensures NothingLost(Next(w, s), t) <==> NothingLost(w, t)
  {
  }

  /** No update of a task is lost if and only if every save overwrites the very version it had read. */
  lemma {:induction false} NothingLostIffSavesFresh(now: int, steps: seq<Step>, t: string)
    ensures NothingLost(Run(Next, Start(now), steps), t) <==> Always(Next, Start(now), steps, FreshSaves(t))
  {
    if steps != [] {
      var before := steps[..|steps| - 1];
      var s := steps[|steps| - 1];
      var w := Run(Next, Start(now), before);
      NothingLostIffSavesFresh(now, before, t);
      RunIsGood(now, before);
      if SavesTask(w, s, t) {
        SaveLosesOrNot(w, s.call, s.fate, t);
      } else {
        OtherStepsLoseNothing(w, s, t);
      }
    }
  }

  /** The call has read t and not yet saved it. */
  predicate InWindow(w: World, call: nat, t: string)
  {
    call in w.flights && w.flights[call].req.taskID == t && (w.flights[call].pc.Checking? || w.flights[call].pc.Saving?)
  }

  ghost predicate OneWindow(w: World, t: string)
  {
    forall a, b | InWindow(w, a, t) && InWindow(w, b, t) :: a == b
  }

  ghost function WindowsApart(t: string): (World, Step) -> bool
  {
    (w, s) => OneWindow(w, t)
  }

  ghost predicate WindowsCurrent(w: World, t: string)
  {
    forall c | InWindow(w, c, t) :: t in w.past && w.flights[c].pc.copy.seen == |w.past[t].commits|
  }

  lemma SaveKeepsWindowsCurrent(w: World, s: Step, t: string)
    requires OneWindow(w, t) && WindowsCurrent(w, t) && SavesTask(w, s, t)
    ensures WindowsCurrent(Next(w, s), t)
  {
    var w' := Next(w, s);
    assert InWindow(w, s.call, t) && !InWindow(w', s.call, t);
    assert forall c | c != s.call :: InWindow(w', c, t) ==> InWindow(w, c, t);
    assert forall c | InWindow(w, c, t) :: c == s.call;
  }

  /** Entering the window reads the current version. */
  lemma EntersCurrent(w: World, f: Flight, fate: Fate)
    requires f.req.taskID in w.rows ==> f.req.taskID in w.past
    requires FlightAfter(w, f, fate).pc.Checking? || FlightAfter(w, f, fate).pc.Saving?
    ensures var copy := FlightAfter(w, f, fate).pc.copy;
            if f.pc.Reading? then f.req.taskID in w.past && copy.seen == |w.past[f.req.taskID].commits|
            else f.pc.Checking? && copy == f.pc.copy
  {
  }

  lemma OtherStepsKeepWindowsCurrent(w: World, s: Step, t: string)
    requires WindowsCurrent(w, t) && !SavesTask(w, s, t) && (t in w.rows ==> t in w.past)
    ensures WindowsCurrent(Next(w, s), t)
  {
    var w' := Next(w, s);
    assert t in w.past ==> t in w'.past && w'.past[t].commits == w.past[t].commits;
    forall c | InWindow(w', c, t)
      ensures t in w'.past && w'.flights[c].pc.copy.seen == |w'.past[t].commits|
    {
      if !Mentions(s, c) { StepLeavesFlight(w, s, c); }
      if s.Advance? && s.call == c {
        EntersCurrent(w, w.flights[c], s.fate);
        if w.flights[c].pc.Checking? { assert InWindow(w, c, t); }
      } else {
        assert InWindow(w, c, t);
      }
    }
  }

  /** Read-to-save windows that never overlap lose no update. */
  lemma {:induction false} DisjointWindowsSaveFresh(now: int, steps: seq<Step>, t: string)
    requires Always(Next, Start(now), steps, WindowsApart(t))
    ensures Always(Next, Start(now), steps, FreshSaves(t))
    ensures OneWindow(Run(Next, Start(now), steps), t) ==> WindowsCurrent(Run(Next, Start(now), steps), t)
  {
    if steps != [] {
      var before := steps[..|steps| - 1];
      var s := steps[|steps| - 1];
      var w := Run(Next, Start(now), before);
      DisjointWindowsSaveFresh(now, before, t);
      RunIsGood(now, before);
      if SavesTask(w, s, t) { SaveKeepsWindowsCurrent(w, s, t); } else { OtherStepsKeepWindowsCurrent(w, s, t); }
      assert StaleSave(w, s, t) ==> InWindow(w, s.call, t);
    }
  }

  /** The statuses a task has gone through, on any run: a path of the transition map from todo in which todo is
      never re-entered, every entry into done is matched by a manager or admin reopening except the current one,
      and every entry into blocked by a resumption except the current one. If no save was stale, the path is made
      of all the saves there ever were. */
  lemma StatusesFollowTheTransitionMap(now: int, steps: seq<Step>, t: string)
    requires t in Run(Next, Start(now), steps).rows
    ensures var w := Run(Next, Start(now), steps);
            && t in w.past && Replay(w.past[t].root, w.past[t].history).Ok?
            && var moves := Moves(w.past[t].root, w.past[t].history);
               var status := w.rows[t].status;
               && Path(Todo, moves, status)
               && Entries(moves, Todo) == 0
               && Entries(moves, Completed) == Reopenings(w.past[t].root, w.past[t].history)
                    + (if status == Completed then 1 else 0)
               && Entries(moves, Blocked) == Exits(moves, Blocked) + (if status == Blocked then 1 else 0)
               && (forall k | 0 <= k < |moves| ::
                     moves[k] in {(Todo, InProgress), (InProgress, Completed), (InProgress, Blocked),
                                  (Blocked, InProgress), (Completed, InProgress)})
    ensures Always(Next, Start(now), steps, WindowsApart(t))
            ==> Run(Next, Start(now), steps).past[t].history == Run(Next, Start(now), steps).past[t].commits
  {
    var w := Run(Next, Start(now), steps);
    StoredRowsHaveLegalHistories(now, steps, t);
    var root, history := w.past[t].root, w.past[t].history;
    MovesFormPath(root, history);
    PathCounts(Moves(root, history), w.rows[t].status);
    ReopeningsAreExits(root, history);
    if Always(Next, Start(now), steps, WindowsApart(t)) {
      DisjointWindowsSaveFresh(now, steps, t);
      NothingLostIffSavesFresh(now, steps, t);
    }
  }

  // ---- tenants ----

  /** The row's project and, if it has one, its assignee belong to the row's company. */
  ghost predicate InsideTenant(w: World, row: Task)
  {
    && Belongs(w.projects, row.projectID, row.companyID)
    && (row.assignedTo.Some? ==> Belongs(w.users, row.assignedTo.value, row.companyID))
  }

  lemma {:induction false} ReplayStaysInsideTenant(w: World, t: string, history: seq<Entry>)
    requires t in w.past && Rooted(w, t) && AllVouched(w, t, history) && Replay(w.past[t].root, history).Ok?
    ensures InsideTenant(w, Replay(w.past[t].root, history).task)
  {
    if history != [] {
      var before := history[..|history| - 1];
      assert forall k | 0 <= k < |before| :: before[k] == history[k];
      ReplayStaysInsideTenant(w, t, before);
      ReplayKeepsIdentity(w.past[t].root, before);
      assert Vouched(w, t, history[|history| - 1]);
    }
  }

  lemma DraftStaysInsideTenant(w: World, t: string, copy: Copy, req: Request)
    requires t in w.past && Rooted(w, t) && Lineage(w, t, copy.task, copy.history)
    requires req.taskID == t && Authorised(w, req) && Edited(copy.task, req).Ok?
    ensures InsideTenant(w, copy.task) && InsideTenant(w, Edited(copy.task, req).task)
  {
    ReplayStaysInsideTenant(w, t, copy.history);
    ReplayKeepsIdentity(w.past[t].root, copy.history);
  }

  /** The private row copies a call holds. */
  function Held(pc: PC): set<Task>
  {
    match pc
    case Checking(copy) => {copy.task}
    case Saving(copy, draft) => {copy.task, draft}
    case Publishing(copy, draft) => {copy.task, draft}
    case Inserting(draft) => {draft}
    case _ => {}
  }

  /** No interleaving, lost update or lock overrun ever puts an outsider on a task: every stored row and every
      copy in flight names a project and an assignee of its own company. */
  lemma RowsStayInsideTheirTenant(now: int, steps: seq<Step>)
    ensures var w := Run(Next, Start(now), steps);
            && (forall t | t in w.rows ::
                  var row := w.rows[t];
                  && row.projectID in w.projects && w.projects[row.projectID].company == row.companyID
                  && (row.assignedTo.Some? ==>
                        row.assignedTo.value in w.users && w.users[row.assignedTo.value].company == row.companyID))
            && (forall c, row | c in w.flights && row in Held(w.flights[c].pc) :: InsideTenant(w, row))
  {
    var w := Run(Next, Start(now), steps);
    RunIsGood(now, steps);
    forall t | t in w.rows ensures InsideTenant(w, w.rows[t]) {
      assert RowOk(w, t);
      ReplayStaysInsideTenant(w, t, w.past[t].history);
    }
    forall c, row | c in w.flights && row in Held(w.flights[c].pc) ensures InsideTenant(w, row) {
      var f := w.flights[c];
      assert FlightOk(w, f);
      var t := f.req.taskID;
      if !f.pc.Inserting? {
        assert t in w.past && RowOk(w, t);
        ReplayStaysInsideTenant(w, t, f.pc.copy.history);
        if !f.pc.Checking? { DraftStaysInsideTenant(w, t, f.pc.copy, f.req); }
      }
    }
  }
}
