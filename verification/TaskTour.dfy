/** Calls nobody interferes with: what a status change answers, a tour through all five moves, and when a lock whose
    owner crashed opens again. */
module TaskTour {
  import opened Prelude
  import opened Runs
  import opened KeyStore
  import opened TaskModel
  import opened TaskProtocol

  /** All steps of a status change, with every command answered. */
  function Change(call: nat, req: Request): seq<Step>
  {
    [Arrive(call, req), Advance(call, Answered), Advance(call, Answered), Advance(call, Answered)]
  }

  lemma RunFour<S, E>(next: (S, E) -> S, s: S, a: E, b: E, c: E, d: E)
    ensures Run(next, s, [a, b, c, d]) == next(next(next(next(s, a), b), c), d)
  {
    assert [a, b, c, d] == [a, b, c] + [d] && [a, b, c] == [a, b] + [c] && [a, b] == [a] + [b];
    RunOne(next, s, a);
    RunSnoc(next, s, [a], b);
    RunSnoc(next, s, [a, b], c);
    RunSnoc(next, s, [a, b, c], d);
  }

  /** The five moves. */
  predicate OneOfFive(from: Status, to: Status)
  {
    (from, to) in {(Todo, InProgress), (InProgress, Completed), (InProgress, Blocked), (Blocked, InProgress),
                   (Completed, InProgress)}
  }

  /** What a status change of a row answers when nothing interferes. */
  function Verdict(row: Task, req: Request): Outcome
    requires req.ChangeStatus?
  {
    if !OneOfFive(row.status, req.newStatus) then Failed(InvalidTransition)
    else if row.status == Completed && req.role != Manager && req.role != Admin then Failed(Forbidden)
    else Ok(row.(status := req.newStatus))
  }

  /** A call as it is answered. */
  function Answer(req: Request, outcome: Outcome): Flight { Flight(req, Done(outcome), 0, outcome.Ok?) }

  lemma ArriveStep(w: World, call: nat, req: Request)
    requires req.ChangeStatus? && call !in w.flights
    requires req.taskID != "" && req.companyID != "" && req.newStatus != Unknown("") && req.changedBy != ""
    ensures Next(w, Arrive(call, req)) == w.(flights := w.flights[call := Flight(req, Reading, 0, false)])
  {
  }

  /** The call once it has read the row. */
  function Drafted(w: World, row: Task, req: Request): Flight
    requires req.ChangeStatus?
  {
    var answer := Verdict(row, req);
    if answer.Ok? then Flight(req, Saving(CopyOf(w.past, row, req.taskID), answer.task), 0, false)
    else Answer(req, answer)
  }

  lemma ReadStep(w: World, call: nat, req: Request)
    requires req.ChangeStatus? && call in w.flights && w.flights[call] == Flight(req, Reading, 0, false)
    requires req.taskID in w.rows && w.rows[req.taskID].companyID == req.companyID
    ensures Next(w, Advance(call, Answered))
            == w.(flights := w.flights[call := Drafted(w, w.rows[req.taskID], req)])
  {
    StatusRules(w.rows[req.taskID], req);
  }

  lemma SaveStep(w: World, call: nat, req: Request, copy: Copy, draft: Task)
    requires req.ChangeStatus? && call in w.flights && w.flights[call] == Flight(req, Saving(copy, draft), 0, false)
    ensures var w' := Next(w, Advance(call, Answered));
            && w'.flights == w.flights[call := Flight(req, Publishing(copy, draft), 0, true)]
            && w'.rows == w.rows[req.taskID := draft] && w'.bus == w.bus
  {
  }

  lemma PublishStep(w: World, call: nat, req: Request, copy: Copy, draft: Task)
    requires req.ChangeStatus? && call in w.flights && w.flights[call] == Flight(req, Publishing(copy, draft), 0, true)
    ensures var w' := Next(w, Advance(call, Answered));
            && w'.flights == w.flights[call := Answer(req, Ok(draft))] && w'.rows == w.rows
            && w'.bus == w.bus + [Posted(call, StatusChanged(req.taskID, copy.task.status, req.newStatus,
                                                             req.changedBy))]
  {
  }

  /** An answered call has no steps left. */
  lemma IdleStep(w: World, call: nat, req: Request, outcome: Outcome)
    requires call in w.flights && w.flights[call] == Answer(req, outcome)
    ensures Next(w, Advance(call, Answered)) == w
  {
    assert w.flights[call := w.flights[call]] == w.flights;
  }

  /** The status change is answered, stored and announced: the world afterwards. */
  ghost predicate Settled(w: World, w': World, call: nat, req: Request, oldStatus: Status, answer: Outcome)
    requires req.ChangeStatus?
  {
    && w'.flights == w.flights[call := Answer(req, answer)]
    && w'.rows == (if answer.Ok? then w.rows[req.taskID := answer.task] else w.rows)
    && w'.bus == w.bus + if answer.Ok?
                         then [Posted(call, StatusChanged(req.taskID, oldStatus, req.newStatus, req.changedBy))]
                         else []
  }

  /** The two commands that follow the read. */
  lemma LastSteps(w: World, call: nat, row: Task, req: Request)
    requires req.ChangeStatus? && call in w.flights && w.flights[call] == Drafted(w, row, req)
    ensures var w' := Next(Next(w, Advance(call, Answered)), Advance(call, Answered));
            Settled(w, w', call, req, row.status, Verdict(row, req))
  {
    var w' := Next(w, Advance(call, Answered));
    var answer := Verdict(row, req);
    if answer.Ok? {
      var copy := CopyOf(w.past, row, req.taskID);
      SaveStep(w, call, req, copy, answer.task);
      PublishStep(w', call, req, copy, answer.task);
    } else {
      IdleStep(w, call, req, answer);
      IdleStep(w', call, req, answer);
    }
  }

  lemma SettledOver(w: World, f: Flight, w': World, call: nat, req: Request, oldStatus: Status, answer: Outcome)
    requires req.ChangeStatus? && Settled(w.(flights := w.flights[call := f]), w', call, req, oldStatus, answer)
    ensures Settled(w, w', call, req, oldStatus, answer)
  {
    assert w.flights[call := f][call := Answer(req, answer)] == w.flights[call := Answer(req, answer)];
  }

  lemma ChangeRuns(next: (World, Step) -> World, w: World, w1: World, w2: World, call: nat, req: Request)
    requires next(w, Arrive(call, req)) == w1 && next(w1, Advance(call, Answered)) == w2
    ensures Run(next, w, Change(call, req)) == next(next(w2, Advance(call, Answered)), Advance(call, Answered))
  {
    RunFour(next, w, Arrive(call, req), Advance(call, Answered), Advance(call, Answered), Advance(call, Answered));
  }

  /** A status change on an existing row of the caller's company is answered, stored and announced by the five moves of
      the transition map and the role that reopening takes. */
  lemma UndisturbedChange(w: World, call: nat, req: Request)
    requires req.ChangeStatus? && call !in w.flights
    requires req.taskID != "" && req.companyID != "" && req.newStatus != Unknown("") && req.changedBy != ""
    requires req.taskID in w.rows && w.rows[req.taskID].companyID == req.companyID
    ensures var row := w.rows[req.taskID];
            Settled(w, Run(Next, w, Change(call, req)), call, req, row.status, Verdict(row, req))
  {
    var row := w.rows[req.taskID];
    var f := Drafted(w, row, req);
    ArriveStep(w, call, req);
    var w1 := w.(flights := w.flights[call := Flight(req, Reading, 0, false)]);
    ReadStep(w1, call, req);
    assert w1.flights[call := f] == w.flights[call := f];
    var w2 := w.(flights := w.flights[call := f]);
    LastSteps(w2, call, row, req);
    ChangeRuns(Next, w, w1, w2, call, req);
    SettledOver(w, f, Run(Next, w, Change(call, req)), call, req, row.status, Verdict(row, req));
  }

  // ---- every path of the transition map can be walked ----

  function Row(status: Status): Task
  {
    Task("t", "p", "c", "boss", Details("title", "", "medium", None), status, None)
  }

  function Asking(newStatus: Status, role: Role): Request { ChangeStatus("t", "c", newStatus, "worker", role) }

  /** A project is opened, and a task created in it by call 0. */
  function Creation(): seq<Step>
  {
    [OpenProject("p", "c"), Arrive(0, Create("t", "c", "p", "boss", Form("title", "", "", NoDate))),
     Advance(0, Answered), Advance(0, Answered)]
  }

  /** The calls 1, 2, ... take the new task from stop to stop, each in its own role and after the one before is done. */
  function Walk(stops: seq<Status>, roles: seq<Role>): seq<Step>
    requires |stops| == |roles| + 1
  {
    if roles == [] then Creation()
    else
      var n := |roles|;
      Walk(stops[..n], roles[..n - 1]) + Change(n, Asking(stops[n], roles[n - 1]))
  }

  /** The move is one of the five, and a reopening is asked for by a manager or an admin. */
  predicate Granted(from: Status, to: Status, role: Role)
  {
    OneOfFive(from, to) && (from == Completed ==> role == Manager || role == Admin)
  }

  /** A path of the transition map that starts in todo, and whose reopenings are asked for by managers and admins. */
  ghost predicate Walkable(stops: seq<Status>, roles: seq<Role>)
  {
    && |stops| == |roles| + 1 && stops[0] == Todo
    && forall k | 0 <= k < |roles| :: Granted(stops[k], stops[k + 1], roles[k])
  }

  /** The task is at the last stop; call k + 1 was answered with stop k + 1 and announced the move from stop k. */
  ghost predicate Walked(w: World, stops: seq<Status>)
    requires stops != []
  {
    && w.rows == map["t" := Row(stops[|stops| - 1])] && |w.bus| == |stops| - 1
    && (forall c | c in w.flights :: c < |stops|)
    && (forall k | 0 < k < |stops| :: k in w.flights && w.flights[k].pc == Done(Ok(Row(stops[k]))))
    && (forall k | 0 <= k < |w.bus| :: w.bus[k] == Posted(k + 1, StatusChanged("t", stops[k], stops[k + 1], "worker")))
  }

  lemma CreationIsWalked(now: int)
    ensures Walked(Run(Next, Start(now), Creation()), [Todo])
  {
    var req := Create("t", "c", "p", "boss", Form("title", "", "", NoDate));
    RunFour(Next, Start(now), OpenProject("p", "c"), Arrive(0, req), Advance(0, Answered), Advance(0, Answered));
    var w1 := Next(Start(now), OpenProject("p", "c"));
    var w2 := Next(w1, Arrive(0, req));
    assert w2.flights == map[0 := Flight(req, Vetting, 0, false)];
    var w3 := Next(w2, Advance(0, Answered));
    assert w3.flights == map[0 := Flight(req, Inserting(Row(Todo)), 0, false)] && w3.rows == map[];
  }

  lemma WalkedOn(w: World, w': World, stops: seq<Status>, req: Request)
    requires stops != [] && Walked(w, stops) && req.ChangeStatus? && req.taskID == "t" && req.changedBy == "worker"
    requires Settled(w, w', |stops|, req, stops[|stops| - 1], Ok(Row(req.newStatus)))
    ensures Walked(w', stops + [req.newStatus])
  {
    var further := stops + [req.newStatus];
    assert w'.rows == map["t" := Row(req.newStatus)];
    forall k | 0 < k < |further| ensures k in w'.flights && w'.flights[k].pc == Done(Ok(Row(further[k]))) {
      if k < |stops| { assert w'.flights[k] == w.flights[k] && further[k] == stops[k]; }
    }
    forall k | 0 <= k < |w'.bus|
      ensures w'.bus[k] == Posted(k + 1, StatusChanged("t", further[k], further[k + 1], "worker"))
    {
      if k < |w.bus| { assert w'.bus[k] == w.bus[k]; }
    }
  }

  /** One more call at the end of a walk. */
  lemma OneMoreCall(w: World, stops: seq<Status>, newStatus: Status, role: Role)
    requires stops != [] && Walked(w, stops) && newStatus != Unknown("")
    ensures var w' := Run(Next, w, Change(|stops|, Asking(newStatus, role)));
            Settled(w, w', |stops|, Asking(newStatus, role), stops[|stops| - 1],
                    Verdict(Row(stops[|stops| - 1]), Asking(newStatus, role)))
  {
    assert "t" in w.rows && w.rows["t"] == Row(stops[|stops| - 1]);
    UndisturbedChange(w, |stops|, Asking(newStatus, role));
  }

  lemma WalkGoesOn(now: int, steps: seq<Step>, stops: seq<Status>, newStatus: Status, role: Role)
    requires stops != [] && Walked(Run(Next, Start(now), steps), stops) && Granted(stops[|stops| - 1], newStatus, role)
    ensures Walked(Run(Next, Start(now), steps + Change(|stops|, Asking(newStatus, role))), stops + [newStatus])
  {
    var w := Run(Next, Start(now), steps);
    var more := Change(|stops|, Asking(newStatus, role));
    OneMoreCall(w, stops, newStatus, role);
    RunConcat(Next, Start(now), steps, more);
    WalkedOn(w, Run(Next, w, more), stops, Asking(newStatus, role));
  }

  /** From the start, every path of the transition map whose reopenings are asked for by managers and admins is walked:
      each call is answered Ok, stored and announced. */
  lemma {:induction false} EveryPathIsWalked(now: int, stops: seq<Status>, roles: seq<Role>)
    requires Walkable(stops, roles)
    ensures Walked(Run(Next, Start(now), Walk(stops, roles)), stops)
  {
    var n := |roles|;
    if n == 0 {
      CreationIsWalked(now);
      assert stops == [Todo];
    } else {
      WalkableBefore(stops, roles);
      EveryPathIsWalked(now, stops[..n], roles[..n - 1]);
      WalkGoesOn(now, Walk(stops[..n], roles[..n - 1]), stops[..n], stops[n], roles[n - 1]);
      assert stops[..n] + [stops[n]] == stops;
    }
  }

  lemma WalkableBefore(stops: seq<Status>, roles: seq<Role>)
    requires Walkable(stops, roles) && roles != []
    ensures Walkable(stops[..|roles|], roles[..|roles| - 1])
    ensures Granted(stops[|roles| - 1], stops[|roles|], roles[|roles| - 1])
  {
    var n := |roles|;
    assert Granted(stops[n - 1], stops[n], roles[n - 1]);
    forall k | 0 <= k < n - 1 ensures Granted(stops[..n][k], stops[..n][k + 1], roles[..n - 1][k]) {
      assert Granted(stops[k], stops[k + 1], roles[k]);
    }
  }

  lemma WalkableFurther(stops: seq<Status>, roles: seq<Role>, newStatus: Status, role: Role)
    requires Walkable(stops, roles)
    ensures Walkable(stops + [newStatus], roles + [role]) <==> Granted(stops[|roles|], newStatus, role)
  {
    var further, all := stops + [newStatus], roles + [role];
    if Walkable(further, all) { assert Granted(further[|roles|], further[|roles| + 1], all[|roles|]); }
    forall k | 0 <= k < |roles| ensures Granted(further[k], further[k + 1], all[k]) {
      assert Granted(stops[k], stops[k + 1], roles[k]);
    }
  }

  /** What call n is answered, and where the task is then. */
  ghost predicate AnsweredWith(w: World, n: nat, outcome: Outcome, status: Status)
  {
    n in w.flights && w.flights[n].pc == Done(outcome) && w.rows == map["t" := Row(status)]
  }

  lemma AnsweredOnceSettled(w: World, w': World, stops: seq<Status>, req: Request, answer: Outcome)
    requires stops != [] && Walked(w, stops) && req.ChangeStatus? && req.taskID == "t"
    requires Settled(w, w', |stops|, req, stops[|stops| - 1], answer)
    requires answer.Ok? ==> answer.task == Row(req.newStatus)
    ensures AnsweredWith(w', |stops|, answer, if answer.Ok? then req.newStatus else stops[|stops| - 1])
  {
    if answer.Ok? { assert w.rows["t" := answer.task] == map["t" := answer.task]; }
  }

  /** At the end of a walk the next call is answered Ok exactly if it lengthens the walk; a reopening that a manager or
      an admin does not ask for is forbidden, and any other move is invalid. */
  lemma TheNextMoveIsGrantedIff(now: int, stops: seq<Status>, roles: seq<Role>, newStatus: Status, role: Role)
    requires Walkable(stops, roles) && newStatus != Unknown("")
    ensures var n := |stops|;
            var w := Run(Next, Start(now), Walk(stops, roles) + Change(n, Asking(newStatus, role)));
            if Walkable(stops + [newStatus], roles + [role]) then AnsweredWith(w, n, Ok(Row(newStatus)), newStatus)
            else if stops[n - 1] == Completed && newStatus == InProgress
            then AnsweredWith(w, n, Failed(Forbidden), Completed)
            else AnsweredWith(w, n, Failed(InvalidTransition), stops[n - 1])
  {
    EveryPathIsWalked(now, stops, roles);
    AnsweredAtTheEnd(now, Walk(stops, roles), stops, newStatus, role);
    WalkableFurther(stops, roles, newStatus, role);
  }

  lemma AnsweredAtTheEnd(now: int, steps: seq<Step>, stops: seq<Status>, newStatus: Status, role: Role)
    requires stops != [] && Walked(Run(Next, Start(now), steps), stops) && newStatus != Unknown("")
    ensures var w := Run(Next, Start(now), steps + Change(|stops|, Asking(newStatus, role)));
            var answer := Verdict(Row(stops[|stops| - 1]), Asking(newStatus, role));
            AnsweredWith(w, |stops|, answer, if answer.Ok? then newStatus else stops[|stops| - 1])
  {
    var w := Run(Next, Start(now), steps);
    var req := Asking(newStatus, role);
    OneMoreCall(w, stops, newStatus, role);
    RunConcat(Next, Start(now), steps, Change(|stops|, req));
    AnsweredOnceSettled(w, Run(Next, w, Change(|stops|, req)), stops, req, Verdict(Row(stops[|stops| - 1]), req));
  }

  const MEMBER := OtherRole("member")

  /** All five moves in a row: a member takes the task to in progress, blocked, in progress and done, and the fifth call
      reopens it exactly for a manager or an admin. */
  lemma FiveMovesInARow(now: int, role: Role)
    ensures var steps := Walk([Todo, InProgress, Blocked, InProgress, Completed], [MEMBER, MEMBER, MEMBER, MEMBER]);
            var w := Run(Next, Start(now), steps + Change(5, Asking(InProgress, role)));
            if role.OtherRole? then AnsweredWith(w, 5, Failed(Forbidden), Completed)
            else AnsweredWith(w, 5, Ok(Row(InProgress)), InProgress)
  {
    var stops, roles := [Todo, InProgress, Blocked, InProgress, Completed], [MEMBER, MEMBER, MEMBER, MEMBER];
    assert Walkable(stops, roles);
    EveryPathIsWalked(now, stops, roles);
    AnsweredAtTheEnd(now, Walk(stops, roles), stops, InProgress, role);
  }

  // ---- the lock of a crashed owner ----

  lemma FreeLockIsClaimed(w: World, call: nat)
    requires call in w.flights && w.flights[call].req.Assign? && w.flights[call].pc == Claiming
    requires !Lookup(w.locks, "lock:task:assign:" + w.flights[call].req.taskID).Occupied(w.now)
    ensures var w' := Next(w, Advance(call, Answered));
            && w'.now == w.now && w'.flights[call].pc == Reading
            && w'.locks == w.locks["lock:task:assign:" + w.flights[call].req.taskID := Stored(call, Until(w.now + 5))]
            && forall c | c in w.flights && c != call :: c in w'.flights && w'.flights[c] == w.flights[c]
  {
  }

  /** A lock whose owner crashed right after its claim refuses the next claim of the task for five seconds, and admits
      one from then on. */
  lemma CrashedOwnersLockOpensAfterFiveSeconds(w: World, owner: nat, claimant: nat, seconds: nat)
    requires owner != claimant && owner in w.flights && claimant in w.flights
    requires w.flights[owner].req.Assign? && w.flights[claimant].req.Assign?
    requires w.flights[owner].pc == Claiming && w.flights[claimant].pc == Claiming
    requires w.flights[owner].req.taskID == w.flights[claimant].req.taskID
    requires !Lookup(w.locks, "lock:task:assign:" + w.flights[owner].req.taskID).Occupied(w.now)
    ensures var w' := Run(Next, w,
            [Advance(owner, Answered), Crash(owner), Tick(seconds), Advance(claimant, Answered)]);
            && owner in w'.flights && w'.flights[owner].pc == Done(Failed(Stopped))
            && claimant in w'.flights
            && w'.flights[claimant].pc == if seconds < 5 then Done(Failed(TaskLocked)) else Reading
  {
    RunFour(Next, w, Advance(owner, Answered), Crash(owner), Tick(seconds), Advance(claimant, Answered));
    FreeLockIsClaimed(w, owner);
    var w1 := Next(w, Advance(owner, Answered));
    var w2 := Next(w1, Crash(owner));
    assert w2.locks == w1.locks && w2.now == w.now && w2.flights[claimant] == w.flights[claimant];
    var w3 := Next(w2, Tick(seconds));
    assert w3.locks == w1.locks && w3.now == w.now + seconds && w3.flights == w2.flights;
  }
}
