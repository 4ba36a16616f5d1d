/** The notification consumer's own code, statement by statement: what one delivery goes through is a run of the
    protocol, with anything other consumers do in between. */
module NotificationService {
  import opened Prelude
  import opened KeyStore
  import opened Runs
  import opened Notifications
  import Broker

  /** The steps others take before a remote command, and the command's own fate. */
  datatype Moment = Moment(others: seq<Step>, fate: Fate)

  datatype Error = NoError | DuplicateEvent | InvalidPayload | InsertError

  /** One delivery on its way to this consumer. */
  datatype Arrival = Arrival(attempt: nat, message: nat, claim: Moment, insert: Moment, settle: Moment)

  predicate Leaves(s: Step, mine: set<nat>)
  {
    (s.Deliver? || s.Advance?) ==> s.attempt !in mine
  }

  ghost predicate LeavesAlone(steps: seq<Step>, mine: set<nat>)
  {
    forall k | 0 <= k < |steps| :: Leaves(steps[k], mine)
  }

  lemma StepLeavesAttempts(w: World, s: Step, mine: set<nat>)
    requires Leaves(s, mine)
    ensures forall x | x in mine :: x in Next(w, s).attempts <==> x in w.attempts
    ensures forall x | x in mine && x in w.attempts :: Next(w, s).attempts[x] == w.attempts[x]
  {
  }

  lemma {:induction false} OthersLeaveAttempts(w: World, steps: seq<Step>, mine: set<nat>)
    requires LeavesAlone(steps, mine)
    ensures var w' := Run(Next, w, steps);
            && w'.nilIsError == w.nilIsError
            && (forall x | x in mine :: x in w'.attempts <==> x in w.attempts)
            && (forall x | x in mine && x in w.attempts :: w'.attempts[x] == w.attempts[x])
  {
    if steps != [] {
      var before := steps[..|steps| - 1];
      OthersLeaveAttempts(w, before, mine);
      StepLeavesAttempts(Run(Next, w, before), steps[|steps| - 1], mine);
    }
  }

  class Consumer {
    const nilIsError: bool
    /** The headers in which the broker tells a count. */
    const headers: nat -> Broker.DeathHeader
    /** The attempts this consumer makes. */
    ghost const mine: set<nat>
    var now: int
    var keys: map<string, Slot<nat>>
    var rows: map<nat, Note>
    var bodies: map<nat, Body>
    var queue: Broker.Queue

    // bookkeeping
    var attempts: map<nat, Attempt>

    ghost predicate Valid() { forall count: nat :: Broker.HeaderCount(headers(count)) == count }

    function View(): World
      reads this
    {
      World(nilIsError, now, keys, rows, bodies, attempts, queue)
    }

    ghost predicate Others(m: Moment) { LeavesAlone(m.others, mine) }

    /** Every step is attempt x's own, or leaves this consumer's attempts alone. */
    ghost predicate Own(steps: seq<Step>, x: nat)
    {
      forall k | 0 <= k < |steps| ::
        Leaves(steps[k], mine) || ((steps[k].Deliver? || steps[k].Advance?) && steps[k].attempt == x)
    }

    /** Attempts of this consumer other than x are as they were. */
    twostate predicate OnlyMoves(x: nat)
      reads this
    {
      forall y | y in mine && y != x ::
        (y in attempts <==> y in old(attempts)) && (y in attempts ==> attempts[y] == old(attempts)[y])
    }

    constructor (nilIsError: bool, headers: nat -> Broker.DeathHeader, ghost mine: set<nat>, stamp: nat -> nat,
      now: int)
      requires forall count: nat :: Broker.HeaderCount(headers(count)) == count
      ensures View() == Notifications.Start(nilIsError, stamp, now) && this.mine == mine && Valid()
    {
      this.nilIsError, this.headers, this.mine, this.now := nilIsError, headers, mine, now;
      keys, rows, bodies, attempts, queue := map[], map[], map[], map[], Broker.NewQueue(stamp);
    }

    /** Other consumers proceed for a while. */
    method Pause(others: seq<Step>)
      requires LeavesAlone(others, mine)
      modifies this
      ensures View() == Run(Next, old(View()), others)
      ensures forall x | x in mine :: x in attempts <==> x in old(attempts)
      ensures forall x | x in mine && x in attempts :: attempts[x] == old(attempts)[x]
    {
      OthersLeaveAttempts(View(), others, mine);
      var w := Run(Next, View(), others);
      now, keys, rows, bodies, attempts, queue := w.now, w.claims, w.rows, w.bodies, w.attempts, w.queue;
    }

    /** SET NX: the error an occupied key may be reported as depends on the client. */
    method SetArgs(key: string, value: nat, ttl: int, fate: Fate) returns (ok: bool, failed: bool)
      modifies `keys
      ensures keys == if fate.Applied() then old(keys)[key := SetNX(Lookup(old(keys), key), value, ttl, now)]
              else old(keys)
      ensures ok == (fate.Answered? && !Lookup(old(keys), key).Occupied(now))
      ensures failed == (fate.Lost? || (nilIsError && Lookup(old(keys), key).Occupied(now)))
    {
      var slot := Lookup(keys, key);
      if fate.Applied() { keys := keys[key := SetNX(slot, value, ttl, now)]; }
      ok := fate.Answered? && !slot.Occupied(now);
      failed := fate.Lost? || (nilIsError && slot.Occupied(now));
    }

    method Create(x: nat, note: Note, fate: Fate) returns (failed: bool)
      modifies `rows
      ensures rows == if fate.Applied() then old(rows)[x := note] else old(rows)
      ensures failed == fate.Lost?
    {
      if fate.Applied() { rows := rows[x := note]; }
      return fate.Lost?;
    }

    /** Ack or Nack. */
    method Acknowledge(x: nat, verdict: Broker.Verdict, fate: Fate)
      modifies `queue
      ensures queue == if fate.Applied() then Broker.Settled(old(queue), x, verdict) else old(queue)
    {
      if fate.Applied() { queue := Broker.Settled(queue, x, verdict); }
    }

    /** The claim of the event's key, as one step of the protocol. */
    method Claim(x: nat, e: Event, m: Moment) returns (ok: bool, failed: bool, ghost steps: seq<Step>)
      requires x in mine && x in attempts && Others(m)
      requires attempts[x].stage.Claiming? && attempts[x].body == Assigned(e)
      modifies this
      ensures View() == Run(Next, old(View()), steps) && Own(steps, x) && OnlyMoves(x)
      ensures x in attempts && attempts[x].body == Assigned(e) && attempts[x].count == old(attempts[x].count)
      ensures attempts[x].stage == if !failed && !ok then Settling(Broker.Processed) else Inserting
      ensures ok && !failed ==> Lookup(keys, "event:" + e.id) == Stored(x, Until(now + 86_400))
      ensures m.fate.Applied() ==> Lookup(keys, "event:" + e.id).Occupied(now)
      ensures !failed ==> m.fate.Answered? && (nilIsError ==> ok)
    {
      Pause(m.others);
      steps := m.others + [Advance(x, m.fate)];
      RunSnoc(Next, old(View()), m.others, Advance(x, m.fate));
      var a, occupied := attempts[x], Lookup(keys, Key(e.id)).Occupied(now);
      ok, failed := SetArgs(Key(e.id), x, DAY, m.fate);
      attempts := attempts[x := AttemptAfter(a, occupied, nilIsError, now, m.fate)];
    }

    /** The insert of the notification, as one step of the protocol. */
    method InsertNote(x: nat, e: Event, m: Moment) returns (failed: bool, ghost steps: seq<Step>)
      requires x in mine && x in attempts && Others(m)
      requires attempts[x].stage.Inserting? && attempts[x].body == Assigned(e)
      modifies this
      ensures View() == Run(Next, old(View()), steps) && Own(steps, x) && OnlyMoves(x)
      ensures x in attempts && attempts[x].body == Assigned(e) && attempts[x].count == old(attempts[x].count)
      ensures attempts[x].stage == Settling(if failed then Broker.Failed else Broker.Processed)
      ensures failed == m.fate.Lost?
      ensures m.fate.Applied() ==>
                x in rows && rows[x] == Note(e.assignedTo, e.company, "task_assigned", "New task assigned to you",
                                             "Task " + e.task + " has been assigned to you", e.payload)
    {
      Pause(m.others);
      steps := m.others + [Advance(x, m.fate)];
      RunSnoc(Next, old(View()), m.others, Advance(x, m.fate));
      var a, occupied := attempts[x], Occupied(View(), attempts[x]);
      var n := Note(e.assignedTo, e.company, "task_assigned", "New task assigned to you",
                    "Task " + e.task + " has been assigned to you", e.payload);
      failed := Create(x, n, m.fate);
      attempts := attempts[x := AttemptAfter(a, occupied, nilIsError, now, m.fate)];
    }

    /** The use case: refuse incomplete events, skip events whose key is taken, insert otherwise. */
    method Execute(x: nat, e: Event, claim: Moment, insert: Moment) returns (err: Error, ghost steps: seq<Step>)
      requires x in mine && x in attempts && Others(claim) && Others(insert)
      requires attempts[x].body == Assigned(e) && attempts[x].stage == FirstStage(Assigned(e))
      modifies this
      ensures View() == Run(Next, old(View()), steps) && Own(steps, x) && OnlyMoves(x)
      ensures x in attempts && attempts[x].body == Assigned(e) && attempts[x].count == old(attempts[x].count)
      ensures attempts[x].stage
              == Settling(if err.NoError? || err.DuplicateEvent? then Broker.Processed else Broker.Failed)
      ensures err.InvalidPayload? <==> e.id == "" || e.assignedTo == "" || e.company == ""
      ensures err.DuplicateEvent? ==> claim.fate.Answered? && !nilIsError
      ensures err.InsertError? ==> insert.fate.Lost?
      ensures err.NoError? ==>
                && insert.fate.Answered? && x in rows
                && rows[x] == Note(e.assignedTo, e.company, "task_assigned", "New task assigned to you",
                                   "Task " + e.task + " has been assigned to you", e.payload)
    {
      if e.id == "" || e.assignedTo == "" || e.company == "" { return InvalidPayload, []; }

      var ok, failed;
      ok, failed, steps := Claim(x, e, claim);
      if failed {
        // proceed anyway
      } else if !ok {
        return DuplicateEvent, steps;
      }

      ghost var inserting;
      failed, inserting := InsertNote(x, e, insert);
      RunConcat(Next, old(View()), steps, inserting);
      steps := steps + inserting;
      err := if failed then InsertError else NoError;
    }

    /** The verdict reaches the broker, or does not. */
    method Settle(x: nat, verdict: Broker.Verdict, m: Moment) returns (ghost steps: seq<Step>)
      requires x in mine && x in attempts && Others(m) && attempts[x].stage.Settling?
      requires verdict == Broker.Decide(attempts[x].stage.outcome, attempts[x].count)
      modifies this
      ensures View() == Run(Next, old(View()), steps) && Own(steps, x) && OnlyMoves(x)
      ensures x in attempts && attempts[x].stage == Done(old(attempts[x].stage.outcome))
    {
      Pause(m.others);
      steps := m.others + [Advance(x, m.fate)];
      RunSnoc(Next, old(View()), m.others, Advance(x, m.fate));
      Acknowledge(x, verdict, m.fate);
      attempts := attempts[x := attempts[x].(stage := Done(attempts[x].stage.outcome))];
    }

    /** One delivery, from the message to its settlement; a verdict to requeue comes with its backoff. */
    method ProcessMessage(msg: Arrival) returns (verdict: Broker.Verdict, ghost steps: seq<Step>)
      requires Valid()
      requires var x := msg.attempt;
               && x in mine && x in attempts && Others(msg.claim) && Others(msg.insert) && Others(msg.settle)
               && attempts[x].stage == FirstStage(attempts[x].body)
      modifies this
      ensures View() == Run(Next, old(View()), steps) && Own(steps, msg.attempt) && OnlyMoves(msg.attempt)
      ensures msg.attempt in attempts && attempts[msg.attempt].stage.Done?
      ensures verdict
              == match attempts[msg.attempt].stage.outcome
                 case Processed => Broker.Ack
                 case Malformed => Broker.DeadLetter
                 case Failed =>
                   var count := old(attempts[msg.attempt].count);
                   if count == 0 then Broker.Requeue(1) else if count == 1 then Broker.Requeue(2)
                   else if count == 2 then Broker.Requeue(4) else Broker.DeadLetter
    {
      var x, body := msg.attempt, attempts[msg.attempt].body;
      if body.BadJson? {
        steps := Settle(x, Broker.DeadLetter, msg.settle);
        return Broker.DeadLetter, steps;
      }
      var retryCount := Broker.RetryCountFromHeaders(headers(attempts[x].count));

      var err;
      err, steps := Execute(x, body.event, msg.claim, msg.insert);
      if err.DuplicateEvent? {
        verdict := Broker.Ack;
      } else if !err.NoError? {
        verdict := if retryCount >= Broker.MAX_RETRIES then Broker.DeadLetter
          else Broker.Requeue(Broker.Pow2(retryCount));
      } else {
        verdict := Broker.Ack;
      }

      Broker.VerdictsOneByOne(attempts[x].stage.outcome, retryCount);
      ghost var settling := Settle(x, verdict, msg.settle);
      RunConcat(Next, old(View()), steps, settling);
      steps := steps + settling;
    }

    /** The broker hands over a ready message. */
    method Receive(msg: Arrival) returns (received: bool, ghost steps: seq<Step>)
      requires msg.attempt in mine && msg.attempt !in attempts
      modifies `attempts, `queue
      ensures View() == Run(Next, old(View()), steps) && Own(steps, msg.attempt) && OnlyMoves(msg.attempt)
      ensures received <==> msg.attempt in attempts
      ensures received ==> attempts[msg.attempt].stage == FirstStage(attempts[msg.attempt].body)
    {
      steps := [Deliver(msg.attempt, msg.message)];
      RunOne(Next, View(), Deliver(msg.attempt, msg.message));
      received := && msg.message in queue.ready && msg.message in queue.ledgers && msg.message in bodies
                  && msg.attempt !in queue.deliveries;
      if received {
        attempts := attempts[msg.attempt := NewAttempt(View(), msg.attempt, msg.message)];
        queue := Broker.Delivered(queue, msg.attempt, msg.message);
      }
    }

    /** The receive loop over any deliveries: one run of the protocol, in which this consumer takes every delivery it
        receives to its settlement. */
    method Start(arrivals: seq<Arrival>) returns (ghost steps: seq<Step>)
      requires Valid()
      requires forall k | 0 <= k < |arrivals| ::
                 && arrivals[k].attempt in mine && arrivals[k].attempt !in attempts
                 && Others(arrivals[k].claim) && Others(arrivals[k].insert) && Others(arrivals[k].settle)
      requires forall j, k | 0 <= j < k < |arrivals| :: arrivals[j].attempt != arrivals[k].attempt
      modifies this
      ensures View() == Run(Next, old(View()), steps)
      ensures forall k | 0 <= k < |arrivals| && arrivals[k].attempt in attempts ::
              attempts[arrivals[k].attempt].stage.Done?
    {
      steps := [];
      for i := 0 to |arrivals|
        invariant View() == Run(Next, old(View()), steps)
        invariant forall k | i <= k < |arrivals| :: arrivals[k].attempt !in attempts
        invariant forall k | 0 <= k < i && arrivals[k].attempt in attempts :: attempts[arrivals[k].attempt].stage.Done?
      {
        ghost var more := Handle(arrivals[i]);
        RunConcat(Next, old(View()), steps, more);
        steps := steps + more;
      }
    }

    method Handle(msg: Arrival) returns (ghost steps: seq<Step>)
      requires Valid() && msg.attempt in mine && msg.attempt !in attempts
      requires Others(msg.claim) && Others(msg.insert) && Others(msg.settle)
      modifies this
      ensures View() == Run(Next, old(View()), steps) && Own(steps, msg.attempt) && OnlyMoves(msg.attempt)
      ensures msg.attempt in attempts ==> attempts[msg.attempt].stage.Done?
    {
      var received;
      received, steps := Receive(msg);
      if received {
        var verdict;
        ghost var more;
        verdict, more := ProcessMessage(msg);
        RunConcat(Next, old(View()), steps, more);
        steps := steps + more;
      }
    }
  }
}
