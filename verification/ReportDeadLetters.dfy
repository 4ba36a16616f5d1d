/** Exactly when a dead-lettered report message leaves its job ready, and runs from the start on which it does. */
module ReportDeadLetters {
  import opened Prelude
  import opened Runs
  import opened Reports
  import opened ReportSettlement
  import Broker

  /** One message per job; x's delivery is not lost, and its status writes report their outcome truly. */
  ghost predicate Undisturbed(w: World, s: Step, x: nat)
  {
    OneMessage(w, s) && (s.Drop? ==> s.attempt != x) && (s.Advance? && s.attempt == x ==> Truthful(w, s))
  }

  ghost function Undisturbing(x: nat): (World, Step) -> bool
  {
    (w, s) => Undisturbed(w, s, x)
  }

  /** The step is not a status write of x's that takes effect. */
  predicate LeavesStatus(w: World, s: Step, x: nat)
  {
    !(s.Advance? && s.attempt == x && x in w.attempts && WritesStatus(w.attempts[x].stage) && s.fate.Applied())
  }

  ghost function WritesNothing(x: nat): (World, Step) -> bool
  {
    (w, s) => LeavesStatus(w, s, x)
  }

  // ---- one delivery at the limit ----

  /** Attempt x holds, or has settled, the delivery of job id's message at the retry limit. */
  predicate AtTheLimit(w: World, x: nat, m: nat, id: string)
  {
    && x in w.attempts && w.attempts[x].message == m && For(w.attempts[x].body, id)
    && w.attempts[x].count >= Broker.MAX_RETRIES
  }

  predicate Holds(w: World, x: nat, m: nat) { x in w.queue.unacked && w.queue.unacked[x] == m }

  /** What the job's status is while the delivery goes on: was says whether the job was ready when it began, untouched
      whether no status write of x's has taken effect. */
  predicate Tracked(w: World, x: nat, m: nat, id: string, was: bool, untouched: bool)
  {
    AtTheLimit(w, x, m, id) &&
    var stage := w.attempts[x].stage;
    && !stage.Stopped?
    && if AfterReady(stage) then Holds(w, x, m) || m in w.queue.acked
       else
         && (Holds(w, x, m) || (stage.Done? && m in w.queue.dead))
         && (IsReady(w, id) <==> was && untouched)
         && (stage.Marking? ==> untouched)
         && (stage.Uploading? || stage.Signing? || stage.Readying? ==> !untouched)
  }

  /** Nobody but x is still at work on the job. */
  ghost predicate Alone(w: World, x: nat, id: string)
  {
    forall y | y in w.attempts && y != x && For(w.attempts[y].body, id) :: !Live(w.attempts[y])
  }

  lemma TrackedIsNotReady(w: World, x: nat, m: nat, id: string, was: bool, untouched: bool)
    requires Sound(w) && Tracked(w, x, m, id, was, untouched)
    ensures m in w.bodies && For(w.bodies[m], id) && m !in w.queue.ready
  {
    assert Holds(w, x, m) ==> Broker.InHand(w.queue, m);
    assert m in w.queue.ledgers;
  }

  /** No other delivery of the message begins. */
  lemma StaysAlone(w: World, s: Step, x: nat, m: nat, id: string)
    requires UniqueMessages(w) && Alone(w, x, id) && m in w.bodies && For(w.bodies[m], id) && m !in w.queue.ready
    ensures Alone(Next(w, s), x, id)
  {
    if s.Deliver? && CanDeliver(w, s.attempt, s.delivered) {
      assert s.delivered != m && !For(w.bodies[s.delivered], id);
    }
  }

  predicate Failing(stage: Stage) { !stage.Stopped? && !AfterReady(stage) }

  lemma OnlyWritersChangeReady(w: World, s: Step, id: string)
    requires id in w.jobs
    requires !(s.Advance? && s.attempt in w.attempts && WritesStatus(w.attempts[s.attempt].stage) &&
             For(w.attempts[s.attempt].body, id))
    ensures IsReady(Next(w, s), id) <==> IsReady(w, id)
  {
  }

  /** Nobody else changes the job. */
  lemma OthersLeaveTheJob(w: World, s: Step, x: nat, id: string)
    requires Alone(w, x, id) && id in w.jobs && !(s.Advance? && s.attempt == x)
    ensures IsReady(Next(w, s), id) <==> IsReady(w, id)
  {
    OnlyWritersChangeReady(w, s, id);
  }

  /** x's delivery stays with x unless it is settled, and a settled message stays settled. */
  ghost predicate DeliveryStays(w: World, w': World, x: nat, m: nat)
  {
    && x in w.attempts && x in w'.attempts && w'.attempts[x] == w.attempts[x] && (Holds(w, x, m) ==> Holds(w', x, m))
    && (m in w.queue.acked ==> m in w'.queue.acked) && (m in w.queue.dead ==> m in w'.queue.dead)
  }

  lemma OtherAdvanceLeavesTheDelivery(w: World, y: nat, fate: Fate, text: string, x: nat, m: nat)
    requires x in w.attempts && y in w.attempts && y != x
    ensures DeliveryStays(w, Advanced(w, y, fate, text), x, m)
  {
  }

  lemma DeliverLeavesTheDelivery(w: World, y: nat, n: nat, x: nat, m: nat)
    requires DeliveriesAgree(w) && x in w.attempts
    ensures DeliveryStays(w, Next(w, Deliver(y, n)), x, m)
  {
  }

  lemma OthersLeaveTheDelivery(w: World, s: Step, x: nat, m: nat)
    requires DeliveriesAgree(w) && x in w.attempts && !((s.Advance? || s.Drop?) && s.attempt == x)
    ensures DeliveryStays(w, Next(w, s), x, m)
  {
    if s.Advance? && s.attempt in w.attempts { OtherAdvanceLeavesTheDelivery(w, s.attempt, s.fate, s.text, x, m); }
    if s.Deliver? { DeliverLeavesTheDelivery(w, s.attempt, s.delivered, x, m); }
  }

  lemma OtherStepStaysTracked(w: World, s: Step, x: nat, m: nat, id: string, was: bool, untouched: bool)
    requires Sound(w) && Alone(w, x, id) && Undisturbed(w, s, x) && Tracked(w, x, m, id, was, untouched)
    requires !(s.Advance? && s.attempt == x)
    ensures Tracked(Next(w, s), x, m, id, was, untouched)
  {
    OthersLeaveTheDelivery(w, s, x, m);
    if Failing(w.attempts[x].stage) {
      assert AttemptAgrees(w, w.attempts[x]);
      OthersLeaveTheJob(w, s, x, id);
    }
  }

  /** x's step while it can still fail: a status write that takes effect leaves the job not ready, or is the ready
      mark. */
  lemma OwnStepWritesStatus(w: World, x: nat, fate: Fate, text: string, id: string)
    requires x in w.attempts && For(w.attempts[x].body, id) && id in w.jobs && Truthful(w, Advance(x, fate, text))
    ensures var w', stage := Advanced(w, x, fate, text), w.attempts[x].stage;
            && (LeavesStatus(w, Advance(x, fate, text), x) ==> (IsReady(w', id) <==> IsReady(w, id)))
            && (!LeavesStatus(w, Advance(x, fate, text), x) ==> (IsReady(w', id) <==> stage.Readying?))
  {
  }

  lemma OwnStageAtTheLimit(a: Attempt, fate: Fate, text: string)
    requires a.count >= Broker.MAX_RETRIES && a.body.Requested?
    ensures var b := AttemptAfter(a, fate, text);
            && b.message == a.message && b.body == a.body && b.count == a.count && !b.stage.Marking?
            && (Failing(a.stage) && Failing(b.stage) ==>
                  && (b.stage.Uploading? ==> a.stage.Marking? && fate.Answered?)
                  && (b.stage.Signing? ==> a.stage.Uploading?) && (b.stage.Readying? ==> a.stage.Signing?)
                  && (b.stage.Done? ==> a.stage.Settling? || a.stage.Done?)
                  && (a.stage.Readying? ==> fate.Lost?))
            && (AfterReady(a.stage) ==> AfterReady(b.stage)) && (a.stage.Stopped? ==> b.stage.Stopped?)
            && (!a.stage.Stopped? ==> !b.stage.Stopped?)
            && (AfterReady(b.stage) && !AfterReady(a.stage) ==> a.stage.Readying?)
  {
  }

  /** Where the message is after x's step. */
  lemma OwnStepMovesTheMessage(w: World, x: nat, fate: Fate, text: string, m: nat, id: string)
    requires DeliveriesAgree(w) && m in w.bodies && AtTheLimit(w, x, m, id)
    ensures var w', stage := Advanced(w, x, fate, text), w.attempts[x].stage;
            && (m in w.queue.acked ==> m in w'.queue.acked) && (m in w.queue.dead ==> m in w'.queue.dead)
            && (Holds(w, x, m) ==>
                 Holds(w', x, m) ||
                 (stage.Settling? && if AfterReady(stage) then m in w'.queue.acked else m in w'.queue.dead))
  {
  }

  lemma OwnStepStaysTracked(w: World, x: nat, fate: Fate, text: string, m: nat, id: string, was: bool, untouched: bool)
    requires DeliveriesAgree(w) && x in w.attempts && AttemptAgrees(w, w.attempts[x])
    requires Truthful(w, Advance(x, fate, text)) && Tracked(w, x, m, id, was, untouched)
    ensures Tracked(Advanced(w, x, fate, text), x, m, id, was, untouched && LeavesStatus(w, Advance(x, fate, text), x))
  {
    OwnStepWritesStatus(w, x, fate, text, id);
    OwnStageAtTheLimit(w.attempts[x], fate, text);
    OwnStepMovesTheMessage(w, x, fate, text, m, id);
  }

  lemma NextStaysAlone(w: World, s: Step, x: nat, m: nat, id: string, was: bool, untouched: bool)
    requires Sound(w) && Alone(w, x, id) && Tracked(w, x, m, id, was, untouched)
    ensures Alone(Next(w, s), x, id)
  {
    TrackedIsNotReady(w, x, m, id, was, untouched);
    StaysAlone(w, s, x, m, id);
  }

  lemma NextStaysTracked(w: World, s: Step, x: nat, m: nat, id: string, was: bool, untouched: bool)
    requires Sound(w) && Alone(w, x, id) && Undisturbed(w, s, x) && Tracked(w, x, m, id, was, untouched)
    ensures Tracked(Next(w, s), x, m, id, was, untouched && LeavesStatus(w, s, x))
  {
    if s.Advance? && s.attempt == x {
      assert AttemptAgrees(w, w.attempts[x]);
      OwnStepStaysTracked(w, x, s.fate, s.text, m, id, was, untouched);
    } else {
      OtherStepStaysTracked(w, s, x, m, id, was, untouched);
    }
  }

  lemma {:induction false} DeliveryStaysTracked(w: World, more: seq<Step>, x: nat, m: nat, id: string)
    requires Sound(w) && Alone(w, x, id) && Always(Next, w, more, Undisturbing(x))
    requires AtTheLimit(w, x, m, id) && Holds(w, x, m) && w.attempts[x].stage.Marking?
    ensures Sound(Run(Next, w, more)) && Alone(Run(Next, w, more), x, id)
    ensures Tracked(Run(Next, w, more), x, m, id, IsReady(w, id), Always(Next, w, more, WritesNothing(x)))
  {
    if more != [] {
      var before, s := more[..|more| - 1], more[|more| - 1];
      DeliveryStaysTracked(w, before, x, m, id);
      NextKeepsSound(Run(Next, w, before), s);
      NextStaysAlone(Run(Next, w, before), s, x, m, id, IsReady(w, id), Always(Next, w, before, WritesNothing(x)));
      NextStaysTracked(Run(Next, w, before), s, x, m, id, IsReady(w, id), Always(Next, w, before, WritesNothing(x)));
    }
  }

  /** Take any run with one message per job, with consumers outliving their deliveries and lost replies, to a state in
      which x holds the delivery of job id's message at the retry limit, has not begun, and nobody else is still at work
      on the job; and anything that happens from there on until x has dead-lettered it, x's delivery not being lost and
      its status writes reporting their outcome truly: the job is ready if and only if it was ready when x began and
      none of x's status writes took effect. */
  lemma DeadLetterLeavesReadyIff(stamp: nat -> nat, steps: seq<Step>, more: seq<Step>, x: nat, m: nat, id: string)
    requires Always(Next, Start(stamp), steps, OneMessage)
    requires Always(Next, Run(Next, Start(stamp), steps), more, Undisturbing(x))
    requires var w := Run(Next, Start(stamp), steps);
             AtTheLimit(w, x, m, id) && Holds(w, x, m) && w.attempts[x].stage.Marking? && Alone(w, x, id)
    requires var w' := Run(Next, Run(Next, Start(stamp), steps), more);
             x in w'.attempts && w'.attempts[x].stage.Done? && m in w'.queue.dead
    ensures var w := Run(Next, Start(stamp), steps);
            IsReady(Run(Next, w, more), id) <==> IsReady(w, id) && Always(Next, w, more, WritesNothing(x))
  {
    var w := Run(Next, Start(stamp), steps);
    OneMessageRunsAreSound(stamp, steps);
    DeliveryStaysTracked(w, more, x, m, id);
    DeadIsNotHeldOrAcked(Run(Next, w, more), x, m);
  }

  lemma DeadIsNotHeldOrAcked(w: World, x: nat, m: nat)
    requires Sound(w) && m in w.queue.dead
    ensures !Holds(w, x, m) && m !in w.queue.acked
  {
    assert Holds(w, x, m) ==> Broker.InHand(w.queue, m);
    assert m in w.queue.ledgers;
  }

  // ---- after the dead letter ----

  /** The attempt can still mark its job ready. */
  predicate MayReady(a: Attempt) { a.stage.Marking? || a.stage.Uploading? || a.stage.Signing? || a.stage.Readying? }

  ghost predicate CanBeReadied(w: World, id: string)
  {
    exists x :: x in w.attempts && For(w.attempts[x].body, id) && MayReady(w.attempts[x])
  }

  ghost predicate StaysUnready(w: World, id: string)
  {
    forall more | Always(Next, w, more, OneMessage) :: !IsReady(Run(Next, w, more), id)
  }

  /** Whatever happened before, with consumers outliving their deliveries and status writes whose replies are lost: a
      job that is not ready and whose only message is dead-lettered stays so for good if and only if no consumer is
      left that could still mark it ready. */
  lemma DeadLetteredJobStaysUnreadyIff(stamp: nat -> nat, steps: seq<Step>, m: nat, id: string)
    requires Always(Next, Start(stamp), steps, OneMessage)
    requires var w := Run(Next, Start(stamp), steps);
             m in w.queue.dead && m in w.bodies && For(w.bodies[m], id) && !IsReady(w, id)
    ensures var w := Run(Next, Start(stamp), steps);
            StaysUnready(w, id) <==> !CanBeReadied(w, id)
  {
    var w := Run(Next, Start(stamp), steps);
    OneMessageRunsAreSound(stamp, steps);
    if CanBeReadied(w, id) {
      var x :| x in w.attempts && For(w.attempts[x].body, id) && MayReady(w.attempts[x]);
      assert AttemptAgrees(w, w.attempts[x]);
      var more := ReadyComesTrue(w, [], w, x, id);
    } else {
      forall more | Always(Next, w, more, OneMessage)
        ensures !IsReady(Run(Next, w, more), id)
      {
        AbandonedRunsStayUnready(w, more, m, id);
      }
    }
  }

  /** From the end of the given steps, the consumer goes on to its ready mark. */
  lemma {:induction false} ReadyComesTrue(w: World, steps: seq<Step>, w1: World, x: nat, id: string)
    returns (more: seq<Step>)
    requires w1 == Run(Next, w, steps) && Always(Next, w, steps, OneMessage)
    requires x in w1.attempts && For(w1.attempts[x].body, id) && MayReady(w1.attempts[x]) && id in w1.jobs
    ensures Always(Next, w, more, OneMessage) && IsReady(Run(Next, w, more), id)
    decreases StagesLeft(w1.attempts[x].stage)
  {
    var s := Advance(x, Answered, "");
    RunSnoc(Next, w, steps, s);
    AlwaysSnoc(Next, w, steps, s, OneMessage);
    OneStageOn(w1, x, id);
    if w1.attempts[x].stage.Readying? {
      more := steps + [s];
    } else {
      more := ReadyComesTrue(w, steps + [s], Next(w1, s), x, id);
    }
  }

  function StagesLeft(stage: Stage): nat
  {
    if stage.Marking? then 3 else if stage.Uploading? then 2 else if stage.Signing? then 1 else 0
  }

  lemma OneStageOn(w: World, x: nat, id: string)
    requires x in w.attempts && For(w.attempts[x].body, id) && MayReady(w.attempts[x]) && id in w.jobs
    ensures var w' := Next(w, Advance(x, Answered, ""));
            if w.attempts[x].stage.Readying? then IsReady(w', id)
            else
              && x in w'.attempts && For(w'.attempts[x].body, id) && MayReady(w'.attempts[x]) && id in w'.jobs
              && StagesLeft(w'.attempts[x].stage) < StagesLeft(w.attempts[x].stage)
  {
  }

  /** The job is not ready, its only message dead-lettered, and nobody is left to mark it. */
  ghost predicate Abandoned(w: World, m: nat, id: string)
  {
    && !IsReady(w, id) && m in w.queue.dead && m in w.bodies && For(w.bodies[m], id)
    && (forall x | x in w.attempts && For(w.attempts[x].body, id) :: !MayReady(w.attempts[x]))
  }

  lemma AdvanceStaysAbandoned(w: World, x: nat, fate: Fate, text: string, m: nat, id: string)
    requires Abandoned(w, m, id) && x in w.attempts
    ensures Abandoned(Advanced(w, x, fate, text), m, id)
  {
    assert For(w.attempts[x].body, id) ==> !MayReady(AttemptAfter(w.attempts[x], fate, text));
    UnreadyStaysUnready(w, x, fate, text, id);
  }

  lemma OtherStepReadiesNothing(w: World, s: Step, id: string)
    requires !IsAdvance(w, s) && !IsReady(w, id)
    ensures !IsReady(Next(w, s), id)
  {
  }

  lemma OtherStepBeginsNothing(w: World, s: Step, m: nat, id: string)
    requires !IsAdvance(w, s) && UniqueMessages(w) && Abandoned(w, m, id) && m !in w.queue.ready
    ensures forall x | x in Next(w, s).attempts && For(Next(w, s).attempts[x].body, id) ::
            !MayReady(Next(w, s).attempts[x])
  {
    if s.Deliver? && CanDeliver(w, s.attempt, s.delivered) {
      assert s.delivered != m && !For(w.bodies[s.delivered], id);
    }
  }

  lemma StepStaysAbandoned(w: World, s: Step, m: nat, id: string)
    requires Sound(w) && Abandoned(w, m, id)
    ensures Abandoned(Next(w, s), m, id)
  {
    if IsAdvance(w, s) {
      AdvanceStaysAbandoned(w, s.attempt, s.fate, s.text, m, id);
    } else {
      SettledIsNotReady(w, m);
      OtherStepReadiesNothing(w, s, id);
      OtherStepBeginsNothing(w, s, m, id);
      OtherStepSettlesNothing(w, s);
    }
  }

  lemma {:induction false} AbandonedRunsStayUnready(w: World, steps: seq<Step>, m: nat, id: string)
    requires Sound(w) && Abandoned(w, m, id) && Always(Next, w, steps, OneMessage)
    ensures Sound(Run(Next, w, steps)) && Abandoned(Run(Next, w, steps), m, id)
  {
    if steps != [] {
      var before, s := steps[..|steps| - 1], steps[|steps| - 1];
      AbandonedRunsStayUnready(w, before, m, id);
      NextKeepsSound(Run(Next, w, before), s);
      StepStaysAbandoned(Run(Next, w, before), s, m, id);
    }
  }

  // ---- runs that leave a dead-lettered job ready ----

  /** What a run may do besides: let consumers outlive their deliveries, lose deliveries after their ready mark, lose
      the reply of a status write that took effect. */
  datatype Leave = Leave(zombies: bool, lateDrops: bool, lies: bool)

  ghost predicate Kept(w: World, s: Step, leave: Leave)
  {
    && OneMessage(w, s) && (leave.zombies || NoZombie(w, s)) && (leave.lateDrops || NoDropAfterReady(w, s))
    && (leave.lies || Truthful(w, s))
  }

  ghost function Keeping(leave: Leave): (World, Step) -> bool
  {
    (w, s) => Kept(w, s, leave)
  }

  ghost predicate Reached(stamp: nat -> nat, steps: seq<Step>, w: World, leave: Leave)
  {
    w == Run(Next, Start(stamp), steps) && Always(Next, Start(stamp), steps, Keeping(leave))
  }

  lemma OneMore(stamp: nat -> nat, steps: seq<Step>, w: World, leave: Leave, s: Step)
    returns (steps': seq<Step>, w': World)
    requires Reached(stamp, steps, w, leave) && Kept(w, s, leave)
    ensures Reached(stamp, steps', w', leave) && w' == Next(w, s)
  {
    RunSnoc(Next, Start(stamp), steps, s);
    AlwaysSnoc(Next, Start(stamp), steps, s, Keeping(leave));
    steps', w' := steps + [s], Next(w, s);
  }

  lemma OneAdvance(stamp: nat -> nat, steps: seq<Step>, w: World, leave: Leave, x: nat, fate: Fate)
    returns (steps': seq<Step>, w': World)
    requires Reached(stamp, steps, w, leave) && x in w.attempts && fate != Lost(true)
    ensures Reached(stamp, steps', w', leave) && w' == Advanced(w, x, fate, "")
  {
    steps', w' := OneMore(stamp, steps, w, leave, Advance(x, fate, ""));
  }

  const JOB := "j"
  const BODY := Requested(JOB, "c", "k", "p")

  /** Message 0 asks for the one job and waits for its delivery number n; earlier attempts are numbered below n. */
  ghost predicate Waiting(stamp: nat -> nat, w: World, n: nat)
  {
    && w.bodies == map[0 := BODY] && JOB in w.jobs && BodyAgrees(w.jobs, BODY) && w.queue.stamp == stamp
    && 0 in w.queue.ready && 0 in w.queue.ledgers && w.queue.ledgers[0].deliveries == n
    && (forall x | x in w.attempts || x in w.queue.deliveries :: x < n)
  }

  /** Attempt n holds the message. */
  ghost predicate Holding(stamp: nat -> nat, w: World, n: nat)
  {
    && w.bodies == map[0 := BODY] && JOB in w.jobs && BodyAgrees(w.jobs, BODY) && w.queue.stamp == stamp
    && 0 in w.queue.ledgers && w.queue.ledgers[0].deliveries == n + 1 && Holds(w, n, 0)
    && (forall x | x in w.attempts || x in w.queue.deliveries :: x <= n)
  }

  predicate Begins(w: World, x: nat, count: nat)
  {
    x in w.attempts && w.attempts[x] == Attempt(0, count, BODY, Marking, "", "")
  }

  lemma Posted(stamp: nat -> nat, leave: Leave) returns (steps: seq<Step>, w: World)
    ensures Reached(stamp, steps, w, leave) && Waiting(stamp, w, 0)
  {
    steps, w := [], Start(stamp);
    steps, w := OneMore(stamp, steps, w, leave, Submit(JOB, "c", "u", "k", "p", Answered));
    steps, w := OneMore(stamp, steps, w, leave, Post(0, JOB, Answered));
  }

  lemma DeliveredNext(stamp: nat -> nat, steps: seq<Step>, w: World, leave: Leave, n: nat)
    returns (steps': seq<Step>, w': World)
    requires Reached(stamp, steps, w, leave) && Waiting(stamp, w, n)
    ensures Reached(stamp, steps', w', leave) && Holding(stamp, w', n) && Begins(w', n, stamp(n)) && w'.jobs == w.jobs
    ensures forall x | x in w.attempts :: x in w'.attempts && w'.attempts[x] == w.attempts[x]
  {
    steps', w' := OneMore(stamp, steps, w, leave, Deliver(n, 0));
  }

  lemma DroppedNext(stamp: nat -> nat, steps: seq<Step>, w: World, leave: Leave, n: nat, stops: bool)
    returns (steps': seq<Step>, w': World)
    requires Reached(stamp, steps, w, leave) && Holding(stamp, w, n) && (leave.zombies || stops) &&
             (leave.lateDrops || Begins(w, n, stamp(n)))
    ensures Reached(stamp, steps', w', leave) && Waiting(stamp, w', n + 1) && w'.jobs == w.jobs
    ensures forall x | x in w.attempts && (x != n || !stops) :: x in w'.attempts && w'.attempts[x] == w.attempts[x]
  {
    steps', w' := OneMore(stamp, steps, w, leave, Drop(n, stops));
  }

  /** Deliveries lost before their consumers began, up to the k-th. */
  lemma {:induction false} LostUpTo(stamp: nat -> nat, steps: seq<Step>, w: World, leave: Leave, n: nat, k: nat)
    returns (steps': seq<Step>, w': World)
    requires Reached(stamp, steps, w, leave) && Waiting(stamp, w, n) && n <= k
    ensures Reached(stamp, steps', w', leave) && Waiting(stamp, w', k) && w'.jobs == w.jobs
    ensures forall x | x in w.attempts :: x in w'.attempts && w'.attempts[x] == w.attempts[x]
    decreases k - n
  {
    if n == k {
      steps', w' := steps, w;
    } else {
      var s1, w1 := DeliveredNext(stamp, steps, w, leave, n);
      var s2, w2 := DroppedNext(stamp, s1, w1, leave, n, true);
      steps', w' := LostUpTo(stamp, s2, w2, leave, n + 1, k);
    }
  }

  lemma Uploaded(stamp: nat -> nat, steps: seq<Step>, w: World, leave: Leave, x: nat, count: nat)
    returns (steps': seq<Step>, w': World)
    requires Reached(stamp, steps, w, leave) && Begins(w, x, count) && JOB in w.jobs && BodyAgrees(w.jobs, BODY)
    ensures Reached(stamp, steps', w', leave) && JOB in w'.jobs && BodyAgrees(w'.jobs, BODY)
    ensures w'.queue == w.queue && w'.bodies == w.bodies &&
            w'.attempts == w.attempts[x := w.attempts[x].(stage := Signing)]
  {
    steps', w' := OneAdvance(stamp, steps, w, leave, x, Answered);
    steps', w' := OneAdvance(stamp, steps', w', leave, x, Answered);
  }

  /** A consumer goes from its beginning to the ready mark. */
  lemma MarkedReady(stamp: nat -> nat, steps: seq<Step>, w: World, leave: Leave, x: nat, count: nat)
    returns (steps': seq<Step>, w': World)
    requires Reached(stamp, steps, w, leave) && Begins(w, x, count) && JOB in w.jobs && BodyAgrees(w.jobs, BODY)
    ensures Reached(stamp, steps', w', leave) && IsReady(w', JOB) && BodyAgrees(w'.jobs, BODY)
    ensures w'.queue == w.queue && w'.bodies == w.bodies && w'.attempts.Keys == w.attempts.Keys
  {
    steps', w' := Uploaded(stamp, steps, w, leave, x, count);
    steps', w' := OneAdvance(stamp, steps', w', leave, x, Answered);
    steps', w' := OneAdvance(stamp, steps', w', leave, x, Answered);
  }

  predicate AboutToDeadLetter(w: World, k: nat)
  {
    && Holds(w, k, 0) && 0 in w.queue.ledgers && k in w.attempts && w.attempts[k].stage == Settling(Broker.Failed)
    && w.attempts[k].count >= Broker.MAX_RETRIES
  }

  lemma FailedTwice(stamp: nat -> nat, steps: seq<Step>, w: World, leave: Leave, k: nat, fate: Fate)
    returns (steps': seq<Step>, w': World)
    requires Reached(stamp, steps, w, leave) && Holding(stamp, w, k) && Begins(w, k, stamp(k)) &&
             stamp(k) >= Broker.MAX_RETRIES
    requires fate != Lost(true)
    ensures Reached(stamp, steps', w', leave) && AboutToDeadLetter(w', k) && JOB in w'.jobs && BodyAgrees(w'.jobs, BODY)
    ensures w'.bodies == w.bodies && (fate == Lost(false) ==> w'.jobs == w.jobs)
    ensures forall x | x in w.attempts && x != k :: x in w'.attempts && w'.attempts[x] == w.attempts[x]
  {
    steps', w' := OneAdvance(stamp, steps, w, leave, k, Lost(false));
    steps', w' := OneAdvance(stamp, steps', w', leave, k, fate);
  }

  /** At the limit, a consumer whose first status write fails gives up; its last one has the given fate. */
  lemma GaveUp(stamp: nat -> nat, steps: seq<Step>, w: World, leave: Leave, k: nat, fate: Fate)
    returns (steps': seq<Step>, w': World)
    requires Reached(stamp, steps, w, leave) && Holding(stamp, w, k) && Begins(w, k, stamp(k)) &&
             stamp(k) >= Broker.MAX_RETRIES
    requires fate != Lost(true)
    ensures Reached(stamp, steps', w', leave) && 0 in w'.queue.dead && JOB in w'.jobs && BodyAgrees(w'.jobs, BODY)
    ensures w'.bodies == w.bodies && (fate == Lost(false) ==> w'.jobs == w.jobs)
    ensures forall x | x in w.attempts && x != k :: x in w'.attempts && w'.attempts[x] == w.attempts[x]
  {
    steps', w' := FailedTwice(stamp, steps, w, leave, k, fate);
    steps', w' := OneAdvance(stamp, steps', w', leave, k, Answered);
  }

  /** Whenever some redelivery is at the limit: a run on which a job is marked ready, its delivery dropped, its consumer
      stopped, and the redelivery dead-lettered after both its status writes failed, truthfully. The job stays ready. */
  lemma ReadyJobCanBeDeadLettered(stamp: nat -> nat, k: nat, leave: Leave) returns (steps: seq<Step>)
    requires k >= 1 && stamp(k) >= Broker.MAX_RETRIES && leave.lateDrops
    ensures Always(Next, Start(stamp), steps, Keeping(leave)) && DeadAndReady(Run(Next, Start(stamp), steps), 0, JOB)
  {
    var w;
    steps, w := Posted(stamp, leave);
    steps, w := DeliveredNext(stamp, steps, w, leave, 0);
    steps, w := MarkedReady(stamp, steps, w, leave, 0, stamp(0));
    steps, w := DroppedNext(stamp, steps, w, leave, 0, true);
    steps, w := LostUpTo(stamp, steps, w, leave, 1, k);
    steps, w := DeliveredNext(stamp, steps, w, leave, k);
    steps, w := GaveUp(stamp, steps, w, leave, k, Lost(false));
  }

  /** Likewise a run on which a consumer outlives its delivery, the redelivery is dead-lettered with the job marked
      failed, and the first consumer then marks it ready. */
  lemma OutlivingConsumerReadiesADeadLetteredJob(stamp: nat -> nat, k: nat, leave: Leave) returns (steps: seq<Step>)
    requires k >= 1 && stamp(k) >= Broker.MAX_RETRIES && leave.zombies
    ensures Always(Next, Start(stamp), steps, Keeping(leave)) && DeadAndReady(Run(Next, Start(stamp), steps), 0, JOB)
  {
    var w;
    steps, w := Posted(stamp, leave);
    steps, w := DeliveredNext(stamp, steps, w, leave, 0);
    steps, w := DroppedNext(stamp, steps, w, leave, 0, false);
    steps, w := LostUpTo(stamp, steps, w, leave, 1, k);
    steps, w := DeliveredNext(stamp, steps, w, leave, k);
    steps, w := GaveUp(stamp, steps, w, leave, k, Answered);
    steps, w := MarkedReady(stamp, steps, w, leave, 0, stamp(0));
  }

  predicate AboutToMark(w: World, k: nat)
  {
    && JOB in w.jobs && BodyAgrees(w.jobs, BODY) && Holds(w, k, 0) && 0 in w.queue.ledgers && k in w.attempts
    && w.attempts[k].body == BODY && w.attempts[k].count >= Broker.MAX_RETRIES
  }

  lemma Signed(stamp: nat -> nat, steps: seq<Step>, w: World, leave: Leave, k: nat)
    returns (steps': seq<Step>, w': World)
    requires Reached(stamp, steps, w, leave) && AboutToMark(w, k) && w.attempts[k].stage.Signing?
    ensures Reached(stamp, steps', w', leave) && AboutToMark(w', k) && w'.attempts[k].stage.Readying?
    ensures w'.bodies == w.bodies
  {
    steps', w' := OneAdvance(stamp, steps, w, leave, k, Answered);
  }

  lemma MarkedUnawares(stamp: nat -> nat, steps: seq<Step>, w: World, leave: Leave, k: nat)
    returns (steps': seq<Step>, w': World)
    requires Reached(stamp, steps, w, leave) && leave.lies && AboutToMark(w, k) && w.attempts[k].stage.Readying?
    ensures Reached(stamp, steps', w', leave) && AboutToMark(w', k) && w'.attempts[k].stage.MarkingFailed?
    ensures w'.bodies == w.bodies && IsReady(w', JOB)
  {
    steps', w' := OneMore(stamp, steps, w, leave, Advance(k, Lost(true), ""));
  }

  /** The ready mark takes effect, its reply is lost, and the failed mark does not get through. */
  lemma MarkedReadyUnawares(stamp: nat -> nat, steps: seq<Step>, w: World, leave: Leave, k: nat)
    returns (steps': seq<Step>, w': World)
    requires Reached(stamp, steps, w, leave) && leave.lies && AboutToMark(w, k) && w.attempts[k].stage.Signing?
    ensures Reached(stamp, steps', w', leave) && AboutToDeadLetter(w', k) && IsReady(w', JOB) && w'.bodies == w.bodies
  {
    steps', w' := Signed(stamp, steps, w, leave, k);
    steps', w' := MarkedUnawares(stamp, steps', w', leave, k);
    steps', w' := OneAdvance(stamp, steps', w', leave, k, Lost(false));
  }

  /** Likewise a run without any of that on which the ready mark at the limit takes effect and its reply is lost. */
  lemma LostReplyReadiesADeadLetteredJob(stamp: nat -> nat, k: nat, leave: Leave) returns (steps: seq<Step>)
    requires stamp(k) >= Broker.MAX_RETRIES && leave.lies
    ensures Always(Next, Start(stamp), steps, Keeping(leave)) && DeadAndReady(Run(Next, Start(stamp), steps), 0, JOB)
  {
    var w;
    steps, w := Posted(stamp, leave);
    steps, w := LostUpTo(stamp, steps, w, leave, 0, k);
    steps, w := DeliveredNext(stamp, steps, w, leave, k);
    steps, w := Uploaded(stamp, steps, w, leave, k, stamp(k));
    steps, w := MarkedReadyUnawares(stamp, steps, w, leave, k);
    steps, w := OneAdvance(stamp, steps, w, leave, k, Answered);
  }

  // ---- the promise ----

  /** A dead-lettered message leaves its job ready. */
  predicate DeadAndReady(w: World, m: nat, id: string)
  {
    m in w.queue.dead && m in w.bodies && For(w.bodies[m], id) && IsReady(w, id)
  }

  /** No reachable state of the runs that keep to the given leave has a dead-lettered message and its job ready. */
  ghost predicate DeadMeansNotReady(stamp: nat -> nat, leave: Leave)
  {
    forall steps, m, id | Always(Next, Start(stamp), steps, Keeping(leave)) ::
      !DeadAndReady(Run(Next, Start(stamp), steps), m, id)
  }

  lemma {:induction false} StrictRunsAreFaithful(stamp: nat -> nat, steps: seq<Step>)
    requires Always(Next, Start(stamp), steps, Keeping(Leave(false, false, false)))
    ensures Always(Next, Start(stamp), steps, Faithful)
  {
    if steps != [] { StrictRunsAreFaithful(stamp, steps[..|steps| - 1]); }
  }

  /** With one message per job, and some redelivery at the limit: the promise holds if and only if no consumer may
      outlive its delivery, no delivery may be lost after its ready mark, and no status write may take effect
      unawares. */
  lemma DeadMeansNotReadyIffNoLeave(stamp: nat -> nat, k: nat, leave: Leave)
    requires k >= 1 && stamp(k) >= Broker.MAX_RETRIES
    ensures DeadMeansNotReady(stamp, leave) <==> leave == Leave(false, false, false)
  {
    if leave.zombies {
      var steps := OutlivingConsumerReadiesADeadLetteredJob(stamp, k, leave);
    } else if leave.lateDrops {
      var steps := ReadyJobCanBeDeadLettered(stamp, k, leave);
    } else if leave.lies {
      var steps := LostReplyReadiesADeadLetteredJob(stamp, k, leave);
    } else {
      forall steps, m, id | Always(Next, Start(stamp), steps, Keeping(leave))
        ensures !DeadAndReady(Run(Next, Start(stamp), steps), m, id)
      {
        StrictRunsAreFaithful(stamp, steps);
        if m in Run(Next, Start(stamp), steps).queue.dead { DeadLetteredJobsAreNotReady(stamp, steps, m); }
      }
    }
  }
}
