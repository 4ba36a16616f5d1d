/** What the settlement of a report message says about its job. */
module ReportSettlement {
  import opened Prelude
  import opened Runs
  import opened Reports
  import Broker

  predicate For(body: Body, id: string) { body.Requested? && body.job == id }

  predicate IsReady(w: World, id: string) { id in w.jobs && w.jobs[id].status.Ready? }

  // ---- hypotheses on runs ----

  /** No job's message is posted twice. */
  ghost predicate OneMessage(w: World, s: Step)
  {
    s.Post? ==> forall m | m in w.bodies :: !For(w.bodies[m], s.job)
  }

  /** A consumer that lost its delivery has stopped. */
  predicate NoZombie(w: World, s: Step) { s.Drop? ==> s.stops }

  /** A status write whose reply is lost did not happen. */
  predicate Truthful(w: World, s: Step)
  {
    s.Advance? && s.attempt in w.attempts && WritesStatus(w.attempts[s.attempt].stage) ==> s.fate != Lost(true)
  }

  predicate AfterReady(stage: Stage)
  {
    stage.Announcing? || ((stage.Settling? || stage.Done?) && stage.outcome.Processed?)
  }

  /** No delivery is lost between the ready mark and its acknowledgement. */
  predicate NoDropAfterReady(w: World, s: Step)
  {
    s.Drop? && s.attempt in w.attempts ==> !AfterReady(w.attempts[s.attempt].stage)
  }

  ghost predicate Orderly(w: World, s: Step) { OneMessage(w, s) && NoZombie(w, s) }

  ghost predicate Faithful(w: World, s: Step)
  {
    OneMessage(w, s) && NoZombie(w, s) && Truthful(w, s) && NoDropAfterReady(w, s)
  }

  // ---- messages and deliveries ----

  ghost predicate DeliveriesAgree(w: World)
  {
    && w.queue.deliveries.Keys == w.attempts.Keys && w.queue.ledgers.Keys == w.bodies.Keys
    && (forall x | x in w.queue.unacked :: x in w.attempts && w.attempts[x].message == w.queue.unacked[x])
    && (forall x | x in w.attempts ::
         w.attempts[x].message in w.bodies && w.attempts[x].body == w.bodies[w.attempts[x].message])
  }

  ghost predicate UniqueMessages(w: World)
  {
    forall m, n | m in w.bodies && n in w.bodies && w.bodies[m].Requested? && For(w.bodies[n], w.bodies[m].job) ::
      m == n
  }

  lemma SettlingOnlyTakesBack(q: Broker.Queue, x: nat, verdict: Broker.Verdict)
    ensures var q' := Broker.Settled(q, x, verdict);
            && q'.deliveries == q.deliveries && q'.ledgers.Keys == q.ledgers.Keys
            && forall a | a in q'.unacked :: a in q.unacked && q'.unacked[a] == q.unacked[a]
  {
  }

  lemma AttemptKeepsItsMessage(a: Attempt, fate: Fate, text: string)
    ensures AttemptAfter(a, fate, text).message == a.message && AttemptAfter(a, fate, text).body == a.body
  {
  }

  lemma DeliveriesStillAgree(w: World, w': World, x: nat, b: Attempt)
    requires DeliveriesAgree(w) && x in w.attempts && b.message == w.attempts[x].message && b.body == w.attempts[x].body
    requires w'.attempts == w.attempts[x := b] && w'.bodies == w.bodies
    requires w'.queue.deliveries == w.queue.deliveries && w'.queue.ledgers.Keys == w.queue.ledgers.Keys
    requires forall a | a in w'.queue.unacked :: a in w.queue.unacked && w'.queue.unacked[a] == w.queue.unacked[a]
    ensures DeliveriesAgree(w')
  {
  }

  lemma AdvanceKeepsDeliveries(w: World, x: nat, fate: Fate, text: string)
    requires DeliveriesAgree(w) && x in w.attempts
    ensures DeliveriesAgree(Advanced(w, x, fate, text))
  {
    var a := w.attempts[x];
    if a.stage.Settling? { SettlingOnlyTakesBack(w.queue, x, Broker.Decide(a.stage.outcome, a.count)); }
    AttemptKeepsItsMessage(a, fate, text);
    DeliveriesStillAgree(w, Advanced(w, x, fate, text), x, AttemptAfter(a, fate, text));
  }

  lemma DeliverKeepsDeliveries(w: World, x: nat, m: nat)
    requires DeliveriesAgree(w)
    ensures DeliveriesAgree(Next(w, Deliver(x, m)))
  {
    if CanDeliver(w, x, m) {
      var w' := Next(w, Deliver(x, m));
      assert w'.attempts.Keys == w.attempts.Keys + {x} && w'.queue.deliveries.Keys == w.queue.deliveries.Keys + {x};
      assert w'.queue.ledgers.Keys == w.queue.ledgers.Keys;
    }
  }

  lemma DropKeepsDeliveries(w: World, x: nat, stops: bool)
    requires DeliveriesAgree(w)
    ensures DeliveriesAgree(Next(w, Drop(x, stops)))
  {
    var w' := Next(w, Drop(x, stops));
    assert w'.queue.ledgers.Keys == w.queue.ledgers.Keys && w'.attempts.Keys == w.attempts.Keys;
  }

  lemma NextKeepsDeliveries(w: World, s: Step)
    requires DeliveriesAgree(w) && Broker.Good(w.queue)
    ensures DeliveriesAgree(Next(w, s))
  {
    match s
    case Advance(x, fate, text) => if x in w.attempts { AdvanceKeepsDeliveries(w, x, fate, text); }
    case Deliver(x, m) => DeliverKeepsDeliveries(w, x, m);
    case Drop(x, stops) => DropKeepsDeliveries(w, x, stops);
    case Submit(_, _, _, _, _, _) =>
    case Post(_, _, _) =>
    case PostJunk(_) =>
  }

  lemma AdvanceKeepsBroker(w: World, x: nat, fate: Fate, text: string)
    requires Broker.Good(w.queue) && x in w.attempts
    ensures Broker.Good(Advanced(w, x, fate, text).queue)
  {
    var a := w.attempts[x];
    if a.stage.Settling? { Broker.SettleKeeps(w.queue, x, Broker.Decide(a.stage.outcome, a.count)); }
  }

  lemma PostKeepsBroker(w: World, m: nat, body: Body)
    requires Broker.Good(w.queue)
    ensures Broker.Good(Posted(w, m, body).queue)
  {
    Broker.PublishKeeps(w.queue, m);
  }

  lemma NextKeepsBroker(w: World, s: Step)
    requires Broker.Good(w.queue)
    ensures Broker.Good(Next(w, s).queue)
  {
    match s
    case Advance(x, fate, text) => if x in w.attempts { AdvanceKeepsBroker(w, x, fate, text); }
    case Deliver(x, m) => Broker.DeliverKeeps(w.queue, x, m);
    case Drop(x, _) => Broker.DropKeeps(w.queue, x);
    case Post(m, id, _) => if id in w.jobs { PostKeepsBroker(w, m, BodyFor(id, w.jobs[id])); }
    case PostJunk(m) => PostKeepsBroker(w, m, BadJson);
    case Submit(_, _, _, _, _, _) =>
  }

  ghost predicate Sound(w: World) { RowsAgree(w) && DeliveriesAgree(w) && UniqueMessages(w) && Broker.Good(w.queue) }

  lemma NextKeepsMessages(w: World, s: Step)
    requires UniqueMessages(w) && OneMessage(w, s)
    ensures UniqueMessages(Next(w, s))
  {
  }

  lemma NextKeepsSound(w: World, s: Step)
    requires Sound(w) && OneMessage(w, s)
    ensures Sound(Next(w, s))
  {
    NextKeepsRows(w, s);
    NextKeepsDeliveries(w, s);
    NextKeepsMessages(w, s);
    NextKeepsBroker(w, s);
  }

  /** An outstanding delivery's message is nowhere else, and nobody else has a message for its job. */
  lemma HolderIsAlone(w: World, x: nat, id: string)
    requires Sound(w) && x in w.queue.unacked && x in w.attempts && For(w.attempts[x].body, id)
    ensures forall m | m in w.bodies && For(w.bodies[m], id) ::
            m !in w.queue.ready && m !in w.queue.acked && m !in w.queue.dead
    ensures forall y | y in w.queue.unacked && For(w.attempts[y].body, id) :: y == x
  {
    var m := w.queue.unacked[x];
    assert Broker.InHand(w.queue, m);
    assert forall n | n in w.bodies && For(w.bodies[n], id) :: n == m;
  }

  // ---- an acknowledged message leaves its job ready ----

  predicate Live(a: Attempt) { !a.stage.Done? && !a.stage.Stopped? }

  /** Only consumers that hold their delivery go on. */
  ghost predicate OnlyHoldersLive(w: World)
  {
    forall x | x in w.attempts && Live(w.attempts[x]) :: x in w.queue.unacked
  }

  ghost predicate AcksAgree(w: World)
  {
    && (forall m | m in w.queue.acked :: m in w.bodies && w.bodies[m].Requested? && IsReady(w, w.bodies[m].job))
    && (forall x | x in w.attempts && Live(w.attempts[x]) && AfterReady(w.attempts[x].stage) ::
          w.attempts[x].body.Requested? && IsReady(w, w.attempts[x].body.job))
  }

  lemma NextKeepsHolders(w: World, s: Step)
    requires OnlyHoldersLive(w) && NoZombie(w, s)
    ensures OnlyHoldersLive(Next(w, s))
  {
  }

  /** The job another holder marks is not this one. */
  lemma OthersStayReady(w: World, x: nat, fate: Fate, text: string, id: string)
    requires x in w.attempts && IsReady(w, id)
    requires !For(w.attempts[x].body, id) || !WritesStatus(w.attempts[x].stage)
    ensures IsReady(Advanced(w, x, fate, text), id)
  {
  }

  /** The job a consumer is about to mark has no other consumer, and its message is not acknowledged. */
  lemma WritersAreAlone(w: World, x: nat)
    requires Sound(w) && OnlyHoldersLive(w) && x in w.attempts
    requires WritesStatus(w.attempts[x].stage) && w.attempts[x].body.Requested?
    ensures forall m | m in w.bodies && For(w.bodies[m], w.attempts[x].body.job) ::
              m !in w.queue.ready && m !in w.queue.acked && m !in w.queue.dead
    ensures forall y | y in w.attempts && y in w.queue.unacked && For(w.attempts[y].body, w.attempts[x].body.job) ::
            y == x
  {
    HolderIsAlone(w, x, w.attempts[x].body.job);
  }

  lemma NewlyAckedIsMarked(w: World, x: nat, fate: Fate, text: string, m: nat)
    requires DeliveriesAgree(w) && AcksAgree(w) && x in w.attempts
    requires m !in w.queue.acked && m in Advanced(w, x, fate, text).queue.acked
    ensures m in w.bodies && w.bodies[m].Requested? && IsReady(w, w.bodies[m].job) && !WritesStatus(w.attempts[x].stage)
  {
    assert Live(w.attempts[x]) && AfterReady(w.attempts[x].stage);
  }

  lemma AdvanceKeepsAckedReady(w: World, x: nat, fate: Fate, text: string, m: nat)
    requires Sound(w) && OnlyHoldersLive(w) && AcksAgree(w) && x in w.attempts
    requires m in Advanced(w, x, fate, text).queue.acked
    ensures m in w.bodies && w.bodies[m].Requested? && IsReady(Advanced(w, x, fate, text), w.bodies[m].job)
  {
    var a := w.attempts[x];
    if WritesStatus(a.stage) && a.body.Requested? { WritersAreAlone(w, x); }
    if m !in w.queue.acked { NewlyAckedIsMarked(w, x, fate, text, m); }
    OthersStayReady(w, x, fate, text, w.bodies[m].job);
  }

  lemma OwnMarkIsReady(w: World, x: nat, fate: Fate, text: string)
    requires AcksAgree(w) && x in w.attempts && AttemptAgrees(w, w.attempts[x])
    requires var b := AttemptAfter(w.attempts[x], fate, text); Live(b) && AfterReady(b.stage)
    ensures w.attempts[x].body.Requested? && IsReady(Advanced(w, x, fate, text), w.attempts[x].body.job)
  {
  }

  /** Another consumer that has marked its job keeps it marked. */
  lemma OtherMarkStays(w: World, x: nat, fate: Fate, text: string, y: nat)
    requires Sound(w) && OnlyHoldersLive(w) && x in w.attempts && y in w.attempts && y != x && Live(w.attempts[y])
    requires w.attempts[y].body.Requested? && IsReady(w, w.attempts[y].body.job)
    ensures IsReady(Advanced(w, x, fate, text), w.attempts[y].body.job)
  {
    if WritesStatus(w.attempts[x].stage) && w.attempts[x].body.Requested? { WritersAreAlone(w, x); }
    OthersStayReady(w, x, fate, text, w.attempts[y].body.job);
  }

  lemma AdvanceKeepsMarkedReady(w: World, x: nat, fate: Fate, text: string, y: nat)
    requires Sound(w) && OnlyHoldersLive(w) && AcksAgree(w) && x in w.attempts
    requires var w' := Advanced(w, x, fate, text);
             y in w'.attempts && Live(w'.attempts[y]) && AfterReady(w'.attempts[y].stage)
    ensures var w' := Advanced(w, x, fate, text);
            w'.attempts[y].body.Requested? && IsReady(w', w'.attempts[y].body.job)
  {
    if y == x {
      assert AttemptAgrees(w, w.attempts[x]);
      OwnMarkIsReady(w, x, fate, text);
      AttemptKeepsItsMessage(w.attempts[x], fate, text);
    } else {
      assert Advanced(w, x, fate, text).attempts[y] == w.attempts[y];
      OtherMarkStays(w, x, fate, text, y);
    }
  }

  lemma NextKeepsAcks(w: World, s: Step)
    requires Sound(w) && OnlyHoldersLive(w) && AcksAgree(w) && Orderly(w, s)
    ensures AcksAgree(Next(w, s))
  {
    if s.Advance? && s.attempt in w.attempts {
      var w' := Next(w, s);
      forall m | m in w'.queue.acked
        ensures m in w'.bodies && w'.bodies[m].Requested? && IsReady(w', w'.bodies[m].job)
      {
        AdvanceKeepsAckedReady(w, s.attempt, s.fate, s.text, m);
      }
      forall y | y in w'.attempts && Live(w'.attempts[y]) && AfterReady(w'.attempts[y].stage)
        ensures w'.attempts[y].body.Requested? && IsReady(w', w'.attempts[y].body.job)
      {
        AdvanceKeepsMarkedReady(w, s.attempt, s.fate, s.text, y);
      }
    } else {
      OtherStepKeepsAcks(w, s);
    }
  }

  predicate IsAdvance(w: World, s: Step) { s.Advance? && s.attempt in w.attempts }

  lemma OtherStepKeepsReady(w: World, s: Step)
    requires !IsAdvance(w, s)
    ensures forall id | IsReady(w, id) :: IsReady(Next(w, s), id)
  {
  }

  lemma OtherStepSettlesNothing(w: World, s: Step)
    requires !IsAdvance(w, s)
    ensures Next(w, s).queue.acked == w.queue.acked && Next(w, s).queue.dead == w.queue.dead
    ensures forall m | m in w.bodies :: m in Next(w, s).bodies && Next(w, s).bodies[m] == w.bodies[m]
  {
  }

  lemma OtherStepMarksNothing(w: World, s: Step)
    requires !IsAdvance(w, s)
    ensures var w' := Next(w, s);
            forall x | x in w'.attempts && Live(w'.attempts[x]) && AfterReady(w'.attempts[x].stage) ::
              x in w.attempts && w'.attempts[x] == w.attempts[x]
  {
  }

  lemma OtherStepKeepsAcks(w: World, s: Step)
    requires AcksAgree(w) && !IsAdvance(w, s)
    ensures AcksAgree(Next(w, s))
  {
    OtherStepKeepsReady(w, s);
    OtherStepSettlesNothing(w, s);
    OtherStepMarksNothing(w, s);
  }

  lemma {:induction false} OrderlyRunsKeepAcks(stamp: nat -> nat, steps: seq<Step>)
    requires Always(Next, Start(stamp), steps, Orderly)
    ensures var w := Run(Next, Start(stamp), steps); Sound(w) && OnlyHoldersLive(w) && AcksAgree(w)
  {
    if steps != [] {
      var before, s := steps[..|steps| - 1], steps[|steps| - 1];
      OrderlyRunsKeepAcks(stamp, before);
      NextKeepsSound(Run(Next, Start(stamp), before), s);
      NextKeepsHolders(Run(Next, Start(stamp), before), s);
      NextKeepsAcks(Run(Next, Start(stamp), before), s);
    }
  }

  /** With one message per job and no consumer outliving its delivery: once a message is acknowledged its job is ready,
      for the rest of the run. */
  lemma AckedJobsStayReady(stamp: nat -> nat, steps: seq<Step>, more: seq<Step>, m: nat)
    requires Always(Next, Start(stamp), steps + more, Orderly)
    requires m in Run(Next, Start(stamp), steps).queue.acked
    ensures var w := Run(Next, Start(stamp), steps + more);
            m in w.bodies && w.bodies[m].Requested? && IsReady(w, w.bodies[m].job)
  {
    RunConcat(Next, Start(stamp), steps, more);
    AcksLast(Run(Next, Start(stamp), steps), more, m);
    OrderlyRunsKeepAcks(stamp, steps + more);
  }

  lemma {:induction false} AcksLast(w: World, steps: seq<Step>, m: nat)
    requires m in w.queue.acked
    ensures m in Run(Next, w, steps).queue.acked
  {
    if steps != [] {
      var before := steps[..|steps| - 1];
      AcksLast(w, before, m);
      StepKeepsAcked(Run(Next, w, before), steps[|steps| - 1], m);
    }
  }

  lemma StepKeepsAcked(w: World, s: Step, m: nat)
    requires m in w.queue.acked
    ensures m in Next(w, s).queue.acked
  {
  }

  /** The attempt can still take its job out of the ready state. */
  predicate Threatens(a: Attempt)
  {
    || a.stage.Marking? || a.stage.MarkingFailed?
    || ((a.stage.Uploading? || a.stage.Signing? || a.stage.Readying?) && a.count >= Broker.MAX_RETRIES)
  }

  ghost predicate Threatened(w: World, id: string)
  {
    exists x :: x in w.attempts && For(w.attempts[x].body, id) && Threatens(w.attempts[x])
  }

  ghost predicate StaysReady(w: World, id: string)
  {
    forall more | Always(Next, w, more, OneMessage) :: IsReady(Run(Next, w, more), id)
  }

  predicate IsSettled(w: World, m: nat) { m in w.queue.acked || m in w.queue.dead }

  /** Whatever happened before, with consumers outliving their deliveries too: a ready job whose only message is
      acknowledged or dead-lettered stays ready for good if and only if no consumer is left that could still unmark
      it. */
  lemma SettledJobStaysReadyIffUnthreatened(stamp: nat -> nat, steps: seq<Step>, m: nat, id: string)
    requires Always(Next, Start(stamp), steps, OneMessage)
    requires var w := Run(Next, Start(stamp), steps);
             IsSettled(w, m) && m in w.bodies && For(w.bodies[m], id) && IsReady(w, id)
    ensures var w := Run(Next, Start(stamp), steps);
            StaysReady(w, id) <==> !Threatened(w, id)
  {
    var w := Run(Next, Start(stamp), steps);
    OneMessageRunsAreSound(stamp, steps);
    if Threatened(w, id) {
      var x :| x in w.attempts && For(w.attempts[x].body, id) && Threatens(w.attempts[x]);
      ThreatComesTrue(w, x, id);
    } else {
      forall more | Always(Next, w, more, OneMessage)
        ensures IsReady(Run(Next, w, more), id)
      {
        UnthreatenedRunsStaySafe(w, more, m, id);
      }
    }
  }

  lemma {:induction false} OneMessageRunsAreSound(stamp: nat -> nat, steps: seq<Step>)
    requires Always(Next, Start(stamp), steps, OneMessage)
    ensures Sound(Run(Next, Start(stamp), steps))
  {
    if steps != [] {
      OneMessageRunsAreSound(stamp, steps[..|steps| - 1]);
      NextKeepsSound(Run(Next, Start(stamp), steps[..|steps| - 1]), steps[|steps| - 1]);
    }
  }

  lemma ThreatComesTrue(w: World, x: nat, id: string)
    requires RowsAgree(w) && x in w.attempts && For(w.attempts[x].body, id) && Threatens(w.attempts[x])
    ensures !StaysReady(w, id)
  {
    var a := w.attempts[x];
    assert AttemptAgrees(w, a);
    if a.stage.Marking? || a.stage.MarkingFailed? {
      var last := Advance(x, Answered, "");
      RunOne(Next, w, last);
      AlwaysSnoc(Next, w, [], last, OneMessage);
      assert [] + [last] == [last] && !IsReady(Run(Next, w, [last]), id);
    } else {
      var first, last := Advance(x, Lost(false), ""), Advance(x, Answered, "");
      RunOne(Next, w, first);
      RunSnoc(Next, w, [first], last);
      AlwaysSnoc(Next, w, [], first, OneMessage);
      assert [] + [first] == [first];
      AlwaysSnoc(Next, w, [first], last, OneMessage);
      FailedAtTheLimit(w, x, id);
      assert !IsReady(Run(Next, w, [first] + [last]), id);
    }
  }

  lemma FailedAtTheLimit(w: World, x: nat, id: string)
    requires x in w.attempts && For(w.attempts[x].body, id) && id in w.jobs && w.attempts[x].count >= Broker.MAX_RETRIES
    requires w.attempts[x].stage.Uploading? || w.attempts[x].stage.Signing? || w.attempts[x].stage.Readying?
    ensures !IsReady(Next(Next(w, Advance(x, Lost(false), "")), Advance(x, Answered, "")), id)
  {
    var w' := Next(w, Advance(x, Lost(false), ""));
    assert w'.jobs == w.jobs && w'.attempts[x].stage.MarkingFailed?;
  }

  /** The job is ready, its only message settled, and nobody threatens it. */
  ghost predicate Safe(w: World, m: nat, id: string)
  {
    && IsReady(w, id) && IsSettled(w, m) && m in w.bodies && For(w.bodies[m], id)
    && (forall x | x in w.attempts && For(w.attempts[x].body, id) :: !Threatens(w.attempts[x]))
  }

  lemma StepStaysSafe(w: World, s: Step, m: nat, id: string)
    requires Sound(w) && Safe(w, m, id)
    ensures Safe(Next(w, s), m, id)
  {
    if IsAdvance(w, s) {
      AdvanceStaysSafe(w, s.attempt, s.fate, s.text, m, id);
    } else {
      SettledIsNotReady(w, m);
      OtherStepStaysSafe(w, s, m, id);
    }
  }

  lemma SettledIsNotReady(w: World, m: nat)
    requires Sound(w) && IsSettled(w, m) && m in w.bodies
    ensures m !in w.queue.ready
  {
    assert m in w.queue.ledgers;
  }

  lemma OtherStepStaysSafe(w: World, s: Step, m: nat, id: string)
    requires !IsAdvance(w, s) && UniqueMessages(w) && Safe(w, m, id) && m !in w.queue.ready
    ensures Safe(Next(w, s), m, id)
  {
    OtherStepKeepsReady(w, s);
    OtherStepSettlesNothing(w, s);
    OtherStepThreatensNothing(w, s, m, id);
  }

  lemma OtherStepThreatensNothing(w: World, s: Step, m: nat, id: string)
    requires !IsAdvance(w, s) && UniqueMessages(w) && Safe(w, m, id) && m !in w.queue.ready
    ensures forall x | x in Next(w, s).attempts && For(Next(w, s).attempts[x].body, id) ::
            !Threatens(Next(w, s).attempts[x])
  {
    if s.Deliver? && CanDeliver(w, s.attempt, s.delivered) {
      assert s.delivered != m && !For(w.bodies[s.delivered], id);
    }
  }

  lemma AdvanceStaysSafe(w: World, x: nat, fate: Fate, text: string, m: nat, id: string)
    requires Safe(w, m, id) && x in w.attempts
    ensures Safe(Advanced(w, x, fate, text), m, id)
  {
    assert For(w.attempts[x].body, id) ==> !Threatens(AttemptAfter(w.attempts[x], fate, text));
  }

  lemma {:induction false} UnthreatenedRunsStaySafe(w: World, steps: seq<Step>, m: nat, id: string)
    requires Sound(w) && Safe(w, m, id) && Always(Next, w, steps, OneMessage)
    ensures Sound(Run(Next, w, steps)) && Safe(Run(Next, w, steps), m, id)
  {
    if steps != [] {
      var before, s := steps[..|steps| - 1], steps[|steps| - 1];
      UnthreatenedRunsStaySafe(w, before, m, id);
      NextKeepsSound(Run(Next, w, before), s);
      StepStaysSafe(Run(Next, w, before), s, m, id);
    }
  }

  // ---- a dead-lettered message leaves its job not ready ----

  predicate UnreadyMessage(w: World, m: nat)
    requires m in w.bodies
  {
    w.bodies[m].Requested? ==> !IsReady(w, w.bodies[m].job)
  }

  predicate UnreadyHolder(w: World, x: nat)
  {
    x in w.attempts && w.attempts[x].body.Requested? && !AfterReady(w.attempts[x].stage) ==>
      !IsReady(w, w.attempts[x].body.job)
  }

  ghost predicate HasMessage(w: World, id: string) { exists m :: m in w.bodies && For(w.bodies[m], id) }

  /** A job is ready only while its message is acknowledged or in the hands of a consumer that has marked it. */
  ghost predicate ReadyIsDeserved(w: World)
  {
    && (forall m | m in w.bodies && (m in w.queue.ready || m in w.queue.dead) :: UnreadyMessage(w, m))
    && (forall x | x in w.queue.unacked && x in w.attempts :: UnreadyHolder(w, x))
    && (forall id | IsReady(w, id) :: HasMessage(w, id))
  }

  /** Attempt x writes the ready mark of the given job. */
  predicate MarksReady(w: World, x: nat, fate: Fate, id: string)
  {
    x in w.attempts && w.attempts[x].stage.Readying? && For(w.attempts[x].body, id) && fate.Applied()
  }

  lemma UnreadyStaysUnready(w: World, x: nat, fate: Fate, text: string, id: string)
    requires x in w.attempts && !MarksReady(w, x, fate, id) && !IsReady(w, id)
    ensures !IsReady(Advanced(w, x, fate, text), id)
  {
  }

  /** Nobody but a job's one consumer marks it. */
  lemma OnlyTheHolderMarks(w: World, x: nat, fate: Fate)
    requires Sound(w) && OnlyHoldersLive(w) && x in w.attempts
    ensures forall m | m in w.bodies && w.bodies[m].Requested? && (m in w.queue.ready || m in w.queue.dead) ::
              !MarksReady(w, x, fate, w.bodies[m].job)
    ensures forall y | y in w.attempts && y in w.queue.unacked && w.attempts[y].body.Requested? && y != x ::
              !MarksReady(w, x, fate, w.attempts[y].body.job)
  {
    if w.attempts[x].stage.Readying? && w.attempts[x].body.Requested? { WritersAreAlone(w, x); }
  }

  lemma SettledMessageIsUnready(w: World, x: nat, fate: Fate, text: string, m: nat)
    requires DeliveriesAgree(w) && ReadyIsDeserved(w) && x in w.attempts && m in w.bodies && m !in w.queue.ready &&
             m !in w.queue.dead
    requires var w' := Advanced(w, x, fate, text); m in w'.queue.ready || m in w'.queue.dead
    ensures w.attempts[x].stage.Settling? && UnreadyMessage(w, m)
  {
    assert UnreadyHolder(w, x);
  }

  lemma AdvanceKeepsMessages(w: World, x: nat, fate: Fate, text: string, m: nat)
    requires Sound(w) && OnlyHoldersLive(w) && ReadyIsDeserved(w) && x in w.attempts && m in w.bodies
    requires var w' := Advanced(w, x, fate, text); m in w'.queue.ready || m in w'.queue.dead
    ensures UnreadyMessage(Advanced(w, x, fate, text), m)
  {
    if w.bodies[m].Requested? {
      if m in w.queue.ready || m in w.queue.dead {
        OnlyTheHolderMarks(w, x, fate);
        assert UnreadyMessage(w, m);
      } else {
        SettledMessageIsUnready(w, x, fate, text, m);
      }
      UnreadyStaysUnready(w, x, fate, text, w.bodies[m].job);
    }
  }

  lemma OwnHolderIsNotMarked(w: World, x: nat, fate: Fate, text: string)
    requires x in w.attempts && UnreadyHolder(w, x) && Truthful(w, Advance(x, fate, text))
    ensures var b := AttemptAfter(w.attempts[x], fate, text);
            && (b.body.Requested? && !AfterReady(b.stage) ==>
                 !MarksReady(w, x, fate, b.body.job) && !IsReady(w, b.body.job))
  {
    MarksLast(w.attempts[x], fate, text);
    AttemptKeepsItsMessage(w.attempts[x], fate, text);
  }

  lemma OtherHolderIsNotMarked(w: World, x: nat, fate: Fate, y: nat)
    requires Sound(w) && OnlyHoldersLive(w) && UnreadyHolder(w, y) && y != x
    requires x in w.attempts && y in w.queue.unacked && y in w.attempts
    ensures var b := w.attempts[y];
            b.body.Requested? && !AfterReady(b.stage) ==> !MarksReady(w, x, fate, b.body.job) && !IsReady(w, b.body.job)
  {
    OnlyTheHolderMarks(w, x, fate);
  }

  lemma HolderIsNotMarked(w: World, x: nat, fate: Fate, text: string, y: nat)
    requires Sound(w) && OnlyHoldersLive(w) && UnreadyHolder(w, y) && Truthful(w, Advance(x, fate, text))
    requires x in w.attempts && y in w.queue.unacked && y in w.attempts
    ensures var b := Advanced(w, x, fate, text).attempts[y];
            b.body == w.attempts[y].body
            && (b.body.Requested? && !AfterReady(b.stage) ==>
                 !MarksReady(w, x, fate, b.body.job) && !IsReady(w, b.body.job))
  {
    if y != x {
      OtherHolderIsNotMarked(w, x, fate, y);
    } else {
      OwnHolderIsNotMarked(w, x, fate, text);
      AttemptKeepsItsMessage(w.attempts[x], fate, text);
    }
  }

  lemma MarksLast(a: Attempt, fate: Fate, text: string)
    ensures AfterReady(a.stage) ==> AfterReady(AttemptAfter(a, fate, text).stage)
    ensures a.stage.Readying? && fate.Answered? ==> AfterReady(AttemptAfter(a, fate, text).stage)
  {
  }

  lemma AdvanceKeepsHolder(w: World, x: nat, fate: Fate, text: string, y: nat)
    requires Sound(w) && OnlyHoldersLive(w) && UnreadyHolder(w, y) && Truthful(w, Advance(x, fate, text))
    requires x in w.attempts && y in w.queue.unacked && y in w.attempts
    ensures UnreadyHolder(Advanced(w, x, fate, text), y)
  {
    HolderIsNotMarked(w, x, fate, text, y);
    var b := Advanced(w, x, fate, text).attempts[y];
    if b.body.Requested? && !AfterReady(b.stage) { UnreadyStaysUnready(w, x, fate, text, b.body.job); }
  }

  lemma AdvanceKeepsDeserved(w: World, x: nat, fate: Fate, text: string)
    requires Sound(w) && OnlyHoldersLive(w) && ReadyIsDeserved(w) && x in w.attempts
    requires Truthful(w, Advance(x, fate, text))
    ensures ReadyIsDeserved(Advanced(w, x, fate, text))
  {
    var w' := Advanced(w, x, fate, text);
    forall m | m in w'.bodies && (m in w'.queue.ready || m in w'.queue.dead)
      ensures UnreadyMessage(w', m)
    {
      AdvanceKeepsMessages(w, x, fate, text, m);
    }
    forall y | y in w'.queue.unacked && y in w'.attempts
      ensures UnreadyHolder(w', y)
    {
      AdvanceKeepsHolder(w, x, fate, text, y);
    }
    forall id | IsReady(w', id)
      ensures HasMessage(w', id)
    {
      if IsReady(w, id) { assert HasMessage(w, id); } else { ReadyMarkHasMessage(w, x, fate, text, id); }
    }
  }

  lemma ReadyMarkHasMessage(w: World, x: nat, fate: Fate, text: string, id: string)
    requires DeliveriesAgree(w) && x in w.attempts && !IsReady(w, id) && IsReady(Advanced(w, x, fate, text), id)
    ensures HasMessage(w, id)
  {
    var m := w.attempts[x].message;
    assert m in w.bodies && For(w.bodies[m], id);
  }

  lemma DropKeepsMessages(w: World, x: nat, m: nat)
    requires DeliveriesAgree(w) && ReadyIsDeserved(w) && NoDropAfterReady(w, Drop(x, true)) && m in w.bodies
    requires var w' := Next(w, Drop(x, true)); m in w'.queue.ready || m in w'.queue.dead
    ensures UnreadyMessage(w, m)
  {
    if x in w.queue.unacked { assert UnreadyHolder(w, x); }
  }

  lemma DropKeepsDeserved(w: World, x: nat)
    requires DeliveriesAgree(w) && ReadyIsDeserved(w) && NoDropAfterReady(w, Drop(x, true))
    ensures ReadyIsDeserved(Next(w, Drop(x, true)))
  {
    var w' := Next(w, Drop(x, true));
    forall m | m in w'.bodies && (m in w'.queue.ready || m in w'.queue.dead)
      ensures UnreadyMessage(w', m)
    {
      DropKeepsMessages(w, x, m);
    }
    DropKeepsHolders(w, x);
    assert forall id | IsReady(w', id) :: HasMessage(w, id);
  }

  lemma DropKeepsHolders(w: World, x: nat)
    requires DeliveriesAgree(w) && ReadyIsDeserved(w)
    ensures var w' := Next(w, Drop(x, true));
            forall y | y in w'.queue.unacked && y in w'.attempts :: UnreadyHolder(w', y)
  {
    var w' := Next(w, Drop(x, true));
    assert forall y | y in w'.queue.unacked && y in w'.attempts :: y != x && UnreadyHolder(w, y);
  }

  lemma DeliverKeepsMessage(w: World, x: nat, m: nat, n: nat)
    requires ReadyIsDeserved(w)
    requires var w' := Next(w, Deliver(x, m)); n in w'.bodies && (n in w'.queue.ready || n in w'.queue.dead)
    ensures UnreadyMessage(Next(w, Deliver(x, m)), n)
  {
    assert n in w.bodies && UnreadyMessage(w, n);
  }

  lemma DeliverKeepsHolder(w: World, x: nat, m: nat, y: nat)
    requires DeliveriesAgree(w) && ReadyIsDeserved(w)
    requires var w' := Next(w, Deliver(x, m)); y in w'.queue.unacked && y in w'.attempts
    ensures UnreadyHolder(Next(w, Deliver(x, m)), y)
  {
    if y in w.queue.unacked { assert UnreadyHolder(w, y); } else { assert UnreadyMessage(w, m); }
  }

  lemma DeliverKeepsDeserved(w: World, x: nat, m: nat)
    requires DeliveriesAgree(w) && ReadyIsDeserved(w)
    ensures ReadyIsDeserved(Next(w, Deliver(x, m)))
  {
    var w' := Next(w, Deliver(x, m));
    forall n | n in w'.bodies && (n in w'.queue.ready || n in w'.queue.dead)
      ensures UnreadyMessage(w', n)
    {
      DeliverKeepsMessage(w, x, m, n);
    }
    forall y | y in w'.queue.unacked && y in w'.attempts
      ensures UnreadyHolder(w', y)
    {
      DeliverKeepsHolder(w, x, m, y);
    }
    assert w'.jobs == w.jobs && w'.bodies == w.bodies;
    forall id | IsReady(w', id) ensures HasMessage(w', id) { assert HasMessage(w, id); }
  }

  lemma ArrivalsReadyNothing(w: World, s: Step)
    requires ReadyIsDeserved(w) && (s.Submit? || s.Post? || s.PostJunk?)
    ensures forall id | IsReady(Next(w, s), id) :: IsReady(w, id) && HasMessage(Next(w, s), id)
  {
    forall id | IsReady(Next(w, s), id)
      ensures IsReady(w, id) && HasMessage(Next(w, s), id)
    {
      assert HasMessage(w, id);
      var m :| m in w.bodies && For(w.bodies[m], id);
      assert m in Next(w, s).bodies && For(Next(w, s).bodies[m], id);
    }
  }

  lemma ArrivalKeepsMessages(w: World, s: Step, m: nat)
    requires DeliveriesAgree(w) && ReadyIsDeserved(w) && OneMessage(w, s) && (s.Submit? || s.Post? || s.PostJunk?)
    requires var w' := Next(w, s); m in w'.bodies && (m in w'.queue.ready || m in w'.queue.dead)
    ensures Next(w, s).bodies[m].Requested? ==> !IsReady(w, Next(w, s).bodies[m].job)
  {
    if m in w.bodies {
      assert UnreadyMessage(w, m);
    } else if s.Post? {
      assert !HasMessage(w, s.job);
    }
  }

  lemma ArrivalKeepsDeserved(w: World, s: Step)
    requires DeliveriesAgree(w) && ReadyIsDeserved(w) && OneMessage(w, s) && (s.Submit? || s.Post? || s.PostJunk?)
    ensures ReadyIsDeserved(Next(w, s))
  {
    var w' := Next(w, s);
    ArrivalsReadyNothing(w, s);
    forall m | m in w'.bodies && (m in w'.queue.ready || m in w'.queue.dead)
      ensures UnreadyMessage(w', m)
    {
      ArrivalKeepsMessages(w, s, m);
    }
    assert forall y | y in w.queue.unacked && y in w.attempts :: UnreadyHolder(w, y);
  }

  lemma NextKeepsDeserved(w: World, s: Step)
    requires Sound(w) && OnlyHoldersLive(w) && ReadyIsDeserved(w) && Faithful(w, s)
    ensures ReadyIsDeserved(Next(w, s))
  {
    if s.Advance? {
      if s.attempt in w.attempts { AdvanceKeepsDeserved(w, s.attempt, s.fate, s.text); }
    } else if s.Drop? {
      DropKeepsDeserved(w, s.attempt);
    } else if s.Deliver? {
      DeliverKeepsDeserved(w, s.attempt, s.delivered);
    } else {
      ArrivalKeepsDeserved(w, s);
    }
  }

  lemma {:induction false} FaithfulRunsDeserveReady(stamp: nat -> nat, steps: seq<Step>)
    requires Always(Next, Start(stamp), steps, Faithful)
    ensures var w := Run(Next, Start(stamp), steps); Sound(w) && OnlyHoldersLive(w) && ReadyIsDeserved(w)
  {
    if steps != [] {
      var before, s := steps[..|steps| - 1], steps[|steps| - 1];
      FaithfulRunsDeserveReady(stamp, before);
      NextKeepsSound(Run(Next, Start(stamp), before), s);
      NextKeepsHolders(Run(Next, Start(stamp), before), s);
      NextKeepsDeserved(Run(Next, Start(stamp), before), s);
    }
  }

  /** With one message per job, consumers that stop with their delivery, status writes that report their outcome
      truly, and no delivery lost after its ready mark: a dead-lettered message was malformed or leaves its job not
      ready. */
  lemma DeadLetteredJobsAreNotReady(stamp: nat -> nat, steps: seq<Step>, m: nat)
    requires Always(Next, Start(stamp), steps, Faithful)
    requires m in Run(Next, Start(stamp), steps).queue.dead
    ensures var w := Run(Next, Start(stamp), steps);
            m in w.bodies &&
              (w.bodies[m].Requested? ==> w.bodies[m].job in w.jobs && !w.jobs[w.bodies[m].job].status.Ready?)
  {
    var w := Run(Next, Start(stamp), steps);
    FaithfulRunsDeserveReady(stamp, steps);
    assert m in w.queue.ledgers && UnreadyMessage(w, m) && BodyAgrees(w.jobs, w.bodies[m]);
  }

  // ---- the queue is the broker's ----

  ghost predicate CountsAgree(w: World)
  {
    forall x | x in w.attempts :: x in w.queue.deliveries && w.queue.deliveries[x].count == w.attempts[x].count
  }

  function PostSteps(w: World, m: nat): seq<Broker.Step>
  {
    if m in w.bodies then [] else [Broker.Publish(m)]
  }

  /** What the step is to the broker. */
  function QueueSteps(w: World, s: Step): seq<Broker.Step>
  {
    match s
    case Submit(_, _, _, _, _, _) => []
    case Post(m, id, fate) => if id in w.jobs && fate.Applied() then PostSteps(w, m) else []
    case PostJunk(m) => PostSteps(w, m)
    case Deliver(x, m) => if m in w.bodies then [Broker.Deliver(x, m)] else []
    case Advance(x, fate, _) =>
      if x in w.attempts && w.attempts[x].stage.Settling? && fate.Applied()
        then [Broker.Settle(x, w.attempts[x].stage.outcome)] else []
    case Drop(x, _) => [Broker.Drop(x)]
  }

  lemma QueueFollows(w: World, s: Step)
    requires CountsAgree(w)
    ensures Next(w, s).queue == Run(Broker.Next, w.queue, QueueSteps(w, s))
  {
    if QueueSteps(w, s) != [] { RunOne(Broker.Next, w.queue, QueueSteps(w, s)[0]); }
  }

  lemma AttemptKeepsItsCount(a: Attempt, fate: Fate, text: string)
    ensures AttemptAfter(a, fate, text).count == a.count
  {
  }

  lemma NextKeepsCounts(w: World, s: Step)
    requires CountsAgree(w) && w.queue.deliveries.Keys == w.attempts.Keys
    ensures CountsAgree(Next(w, s)) && Next(w, s).queue.deliveries.Keys == Next(w, s).attempts.Keys
  {
    if s.Advance? && s.attempt in w.attempts { AttemptKeepsItsCount(w.attempts[s.attempt], s.fate, s.text); }
    if s.Deliver? { assert Next(w, s).queue.deliveries.Keys == Next(w, s).attempts.Keys; }
  }

  /** The consumers' queue goes through a run of the broker. */
  lemma {:induction false} QueueIsARun(stamp: nat -> nat, steps: seq<Step>) returns (sent: seq<Broker.Step>)
    ensures var w := Run(Next, Start(stamp), steps);
            && CountsAgree(w) && w.queue.deliveries.Keys == w.attempts.Keys
            && w.queue == Run(Broker.Next, Broker.NewQueue(stamp), sent)
  {
    if steps == [] {
      sent := [];
    } else {
      var before, s := steps[..|steps| - 1], steps[|steps| - 1];
      var w := Run(Next, Start(stamp), before);
      var earlier := QueueIsARun(stamp, before);
      QueueFollows(w, s);
      NextKeepsCounts(w, s);
      RunConcat(Broker.Next, Broker.NewQueue(stamp), earlier, QueueSteps(w, s));
      sent := earlier + QueueSteps(w, s);
    }
  }

  /** So the retry limit holds of every message of every run of the consumers, if the broker counts every redelivery. */
  lemma ConsumersRetriesAreLimited(stamp: nat -> nat, steps: seq<Step>, m: nat)
    requires Broker.CountsEveryDelivery(stamp)
    ensures var q := Run(Next, Start(stamp), steps).queue;
            m in q.ledgers ==>
              var l := q.ledgers[m];
              l.requeues <= 3 && l.deliveries <= 4 + l.drops && l.slept <= 7
  {
    var sent := QueueIsARun(stamp, steps);
    Broker.RetriesAreLimited(stamp, sent, m);
  }
}
