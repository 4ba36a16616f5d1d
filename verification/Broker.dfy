/** Delivery of queued messages to consumers: publishing, delivery, settlement and the retry limit that the
    notification and report consumers share. */
module Broker {
  import opened Prelude
  import opened Runs

  const MAX_RETRIES: nat := 3

  /** What has happened to one message so far; slept is the total backoff in seconds. */
  datatype Ledger = Ledger(deliveries: nat, requeues: nat, drops: nat, slept: nat)

  /** A message in a consumer's hands, with the retry count its headers carried. */
  datatype Delivery = Delivery(message: nat, count: nat)

  /** stamp says which retry count the broker puts into the headers after a number of earlier deliveries. */
  datatype Queue = Queue(stamp: nat -> nat, ready: set<nat>, unacked: map<nat, nat>, acked: set<nat>, dead: set<nat>,
                         deliveries: map<nat, Delivery>, ledgers: map<nat, Ledger>)

  datatype Outcome = Processed | Malformed | Failed

  datatype Verdict = Ack | DeadLetter | Requeue(delay: nat)

  /** Deliveries are told apart by the attempt they start. A dropped delivery is one whose channel was lost. */
  datatype Step =
    | Publish(message: nat)
    | Deliver(attempt: nat, message: nat)
    | Settle(attempt: nat, outcome: Outcome)
    | Drop(attempt: nat)

  function Pow2(n: nat): (r: nat)
    ensures r >= 1
  {
    if n == 0 then 1 else 2 * Pow2(n - 1)
  }

  lemma {:induction false} Pow2Monotone(m: nat, n: nat)
    requires m <= n
    ensures Pow2(m) <= Pow2(n)
  {
    if m < n { Pow2Monotone(m, n - 1); }
  }

  function Decide(outcome: Outcome, count: nat): Verdict
  {
    match outcome
    case Processed => Ack
    case Malformed => DeadLetter
    case Failed => if count >= MAX_RETRIES then DeadLetter else Requeue(Pow2(count))
  }

  /** The verdicts one by one: a failure is retried after 1, 2 and 4 seconds, and dead-lettered from the third retry
      on. */
  lemma VerdictsOneByOne(outcome: Outcome, count: nat)
    ensures Decide(outcome, count)
            == match outcome
               case Processed => Ack
               case Malformed => DeadLetter
               case Failed =>
                 if count == 0 then Requeue(1) else if count == 1 then Requeue(2) else if count == 2 then Requeue(4)
                 else DeadLetter
  {
    assert Pow2(1) == 2 && Pow2(2) == 4;
  }

  function NewQueue(stamp: nat -> nat): Queue
  {
    Queue(stamp, {}, map[], {}, {}, map[], map[])
  }

  function Published(q: Queue, message: nat): Queue
  {
    if message in q.ledgers then q
    else q.(ready := q.ready + {message}, ledgers := q.ledgers[message := Ledger(0, 0, 0, 0)])
  }

  function Delivered(q: Queue, attempt: nat, message: nat): Queue
  {
    if message !in q.ready || message !in q.ledgers || attempt in q.deliveries then q
    else
      var l := q.ledgers[message];
      q.(ready := q.ready - {message},
         unacked := q.unacked[attempt := message],
         deliveries := q.deliveries[attempt := Delivery(message, q.stamp(l.deliveries))],
         ledgers := q.ledgers[message := l.(deliveries := l.deliveries + 1)])
  }

  function LedgerAfter(l: Ledger, verdict: Verdict): Ledger
  {
    if verdict.Requeue? then l.(requeues := l.requeues + 1, slept := l.slept + verdict.delay) else l
  }

  /** Settling a delivery that is no longer outstanding changes nothing. */
  function Settled(q: Queue, attempt: nat, verdict: Verdict): Queue
  {
    if attempt !in q.unacked || q.unacked[attempt] !in q.ledgers then q
    else
      var m := q.unacked[attempt];
      q.(ready := q.ready + if verdict.Requeue? then {m} else {},
         acked := q.acked + if verdict.Ack? then {m} else {},
         dead := q.dead + if verdict.DeadLetter? then {m} else {},
         unacked := q.unacked - {attempt},
         ledgers := q.ledgers[m := LedgerAfter(q.ledgers[m], verdict)])
  }

  function Dropped(q: Queue, attempt: nat): Queue
  {
    if attempt !in q.unacked || q.unacked[attempt] !in q.ledgers then q
    else
      var m := q.unacked[attempt];
      q.(ready := q.ready + {m},
         unacked := q.unacked - {attempt},
         ledgers := q.ledgers[m := q.ledgers[m].(drops := q.ledgers[m].drops + 1)])
  }

  function Next(q: Queue, s: Step): Queue
  {
    match s
    case Publish(message) => Published(q, message)
    case Deliver(attempt, message) => Delivered(q, attempt, message)
    case Settle(attempt, outcome) =>
      if attempt in q.deliveries then Settled(q, attempt, Decide(outcome, q.deliveries[attempt].count)) else q
    case Drop(attempt) => Dropped(q, attempt)
  }

  // ---- conservation ----

  predicate InHand(q: Queue, message: nat) { message in q.unacked.Values }

  predicate ExactlyOne(a: bool, b: bool, c: bool, d: bool)
  {
    && (a || b || c || d)
    && !(a && b) && !(a && c) && !(a && d) && !(b && c) && !(b && d) && !(c && d)
  }

  /** Every published message is in exactly one place, in at most one consumer's hands, and nothing else is anywhere. */
  ghost predicate Conserved(q: Queue)
  {
    && (forall m | m in q.ledgers :: ExactlyOne(m in q.ready, InHand(q, m), m in q.acked, m in q.dead))
    && (forall m | m in q.ready || InHand(q, m) || m in q.acked || m in q.dead :: m in q.ledgers)
    && (forall a, b | a in q.unacked && b in q.unacked && q.unacked[a] == q.unacked[b] :: a == b)
  }

  /** The headers of an outstanding delivery are those of its message's latest delivery. */
  predicate HeadersAgree(q: Queue, a: nat)
    requires a in q.unacked
  {
    && a in q.deliveries && q.deliveries[a].message == q.unacked[a]
    && q.unacked[a] in q.ledgers && q.ledgers[q.unacked[a]].deliveries > 0
    && q.deliveries[a].count == q.stamp(q.ledgers[q.unacked[a]].deliveries - 1)
  }

  /** A message is redelivered only after being requeued or dropped. */
  predicate LedgerAgrees(q: Queue, m: nat)
    requires m in q.ledgers
  {
    q.ledgers[m].deliveries == q.ledgers[m].requeues + q.ledgers[m].drops + if m in q.ready then 0 else 1
  }

  ghost predicate LedgersAgree(q: Queue)
  {
    && (forall a | a in q.unacked :: HeadersAgree(q, a))
    && (forall m | m in q.ledgers :: LedgerAgrees(q, m))
  }

  ghost predicate Good(q: Queue) { Conserved(q) && LedgersAgree(q) }

  lemma PublishKeeps(q: Queue, message: nat)
    requires Good(q)
    ensures Good(Published(q, message))
  {
  }

  lemma DeliverKeepsPlaces(q: Queue, attempt: nat, message: nat)
    requires Good(q)
    ensures Conserved(Delivered(q, attempt, message))
  {
    HandsAfterDelivery(q, attempt, message);
    if message in q.ready && attempt !in q.deliveries {
      assert message in q.ledgers && !InHand(q, message);
      assert forall a | a in q.unacked :: InHand(q, q.unacked[a]);
    }
  }

  lemma DeliverKeepsHeaders(q: Queue, attempt: nat, message: nat)
    requires Good(q) && message in q.ready && attempt !in q.deliveries
    ensures var q' := Delivered(q, attempt, message); forall a | a in q'.unacked :: HeadersAgree(q', a)
  {
    assert message in q.ledgers && !InHand(q, message);
    forall a | a in q.unacked
      ensures HeadersAgree(Delivered(q, attempt, message), a)
    {
      assert HeadersAgree(q, a) && InHand(q, q.unacked[a]) && q.unacked[a] != message;
    }
  }

  lemma DeliverKeepsLedgers(q: Queue, attempt: nat, message: nat)
    requires Good(q)
    ensures LedgersAgree(Delivered(q, attempt, message))
  {
    if message in q.ready && attempt !in q.deliveries {
      DeliverKeepsHeaders(q, attempt, message);
      assert message in q.ledgers && LedgerAgrees(q, message);
      forall m | m in q.ledgers
        ensures LedgerAgrees(Delivered(q, attempt, message), m)
      {
        assert LedgerAgrees(q, m);
      }
    }
  }

  lemma DeliverKeeps(q: Queue, attempt: nat, message: nat)
    requires Good(q)
    ensures Good(Delivered(q, attempt, message))
  {
    DeliverKeepsPlaces(q, attempt, message);
    DeliverKeepsLedgers(q, attempt, message);
  }

  /** Taking one delivery back leaves every other message where it was. */
  lemma OtherHandsKeepTheirs(q: Queue, attempt: nat)
    requires Conserved(q) && attempt in q.unacked
    ensures forall m :: m in (q.unacked - {attempt}).Values <==> InHand(q, m) && m != q.unacked[attempt]
  {
    forall m | InHand(q, m) && m != q.unacked[attempt]
      ensures m in (q.unacked - {attempt}).Values
    {
      var a :| a in q.unacked && q.unacked[a] == m;
      assert (q.unacked - {attempt})[a] == m;
    }
  }

  lemma SettleKeeps(q: Queue, attempt: nat, verdict: Verdict)
    requires Good(q)
    ensures Good(Settled(q, attempt, verdict))
  {
    if attempt in q.unacked {
      OtherHandsKeepTheirs(q, attempt);
      assert InHand(q, q.unacked[attempt]);
    }
  }

  lemma DropKeeps(q: Queue, attempt: nat)
    requires Good(q)
    ensures Good(Dropped(q, attempt))
  {
    if attempt in q.unacked {
      OtherHandsKeepTheirs(q, attempt);
      assert InHand(q, q.unacked[attempt]);
    }
  }

  lemma NextKeeps(q: Queue, s: Step)
    requires Good(q)
    ensures Good(Next(q, s))
  {
    match s
    case Publish(message) => PublishKeeps(q, message);
    case Deliver(attempt, message) => DeliverKeeps(q, attempt, message);
    case Settle(attempt, outcome) =>
      if attempt in q.deliveries { SettleKeeps(q, attempt, Decide(outcome, q.deliveries[attempt].count)); }
    case Drop(attempt) => DropKeeps(q, attempt);
  }

  /** In every reachable state each published message is ready, in one consumer's hands, acknowledged or
      dead-lettered, and only one of these. */
  lemma {:induction false} MessagesAreConserved(stamp: nat -> nat, steps: seq<Step>)
    ensures Good(Run(Next, NewQueue(stamp), steps)) && Run(Next, NewQueue(stamp), steps).stamp == stamp
  {
    if steps != [] {
      MessagesAreConserved(stamp, steps[..|steps| - 1]);
      NextKeeps(Run(Next, NewQueue(stamp), steps[..|steps| - 1]), steps[|steps| - 1]);
    }
  }

  /** A verdict that reaches the broker puts the message in its one place: acknowledged, dead-lettered or ready. */
  lemma VerdictTakesEffect(stamp: nat -> nat, steps: seq<Step>, attempt: nat, verdict: Verdict)
    requires attempt in Run(Next, NewQueue(stamp), steps).unacked
    ensures var q := Run(Next, NewQueue(stamp), steps);
            var m := q.unacked[attempt];
            var q' := Settled(q, attempt, verdict);
            && (m in q'.acked <==> verdict.Ack?) && (m in q'.dead <==> verdict.DeadLetter?)
            && (m in q'.ready <==> verdict.Requeue?) && !InHand(q', m)
  {
    MessagesAreConserved(stamp, steps);
    var q := Run(Next, NewQueue(stamp), steps);
    SettleKeeps(q, attempt, verdict);
    assert InHand(q, q.unacked[attempt]);
    assert q.unacked[attempt] in Settled(q, attempt, verdict).ledgers;
  }

  /** What never goes back: final places, spent deliveries and published messages. */
  ghost predicate NothingReturns(q: Queue, q': Queue)
  {
    && q.acked <= q'.acked && q.dead <= q'.dead
    && (forall m | m in q.ledgers :: m in q'.ledgers)
    && (forall a | a in q.deliveries :: a in q'.deliveries && (a !in q.unacked ==> a !in q'.unacked))
  }

  lemma StepReturnsNothing(q: Queue, s: Step)
    ensures NothingReturns(q, Next(q, s))
  {
  }

  /** A settled message stays settled, a delivery that has been settled or dropped never becomes outstanding again,
      and no message disappears. */
  lemma {:induction false} SettledForGood(q: Queue, steps: seq<Step>)
    ensures NothingReturns(q, Run(Next, q, steps))
  {
    if steps != [] {
      var before := steps[..|steps| - 1];
      SettledForGood(q, before);
      StepReturnsNothing(Run(Next, q, before), steps[|steps| - 1]);
    }
  }

  // ---- the retry limit ----

  /** The broker raises the count with every redelivery. */
  ghost predicate CountsEveryDelivery(stamp: nat -> nat)
  {
    forall i: nat, j: nat | i < j :: stamp(i) < stamp(j)
  }

  lemma {:induction false} CountsReachEveryBound(stamp: nat -> nat, i: nat)
    requires CountsEveryDelivery(stamp)
    ensures i <= stamp(i)
  {
    if i > 0 { CountsReachEveryBound(stamp, i - 1); }
  }

  /** What is known of a message's backoff, given the count that its next or its current delivery carries. */
  predicate WithinLimits(l: Ledger, count: nat)
  {
    l.requeues <= MAX_RETRIES && l.slept < Pow2(MAX_RETRIES) && l.slept < Pow2(count)
  }

  ghost predicate MessageLimited(q: Queue, m: nat)
    requires m in q.ledgers
  {
    var l := q.ledgers[m];
    && l.requeues <= MAX_RETRIES && l.slept < Pow2(MAX_RETRIES)
    && (m in q.ready ==> WithinLimits(l, q.stamp(l.deliveries)))
    && (InHand(q, m) ==> l.deliveries > 0 && WithinLimits(l, q.stamp(l.deliveries - 1)))
  }

  ghost predicate Limited(q: Queue)
  {
    forall m | m in q.ledgers :: MessageLimited(q, m)
  }

  lemma RequeueKeepsLimits(stamp: nat -> nat, l: Ledger, count: nat)
    requires CountsEveryDelivery(stamp) && l.deliveries > 0 && count == stamp(l.deliveries - 1)
    requires WithinLimits(l, count) && count < MAX_RETRIES && l.requeues < l.deliveries
    ensures WithinLimits(LedgerAfter(l, Requeue(Pow2(count))), stamp(l.deliveries))
  {
    CountsReachEveryBound(stamp, l.deliveries - 1);
    assert stamp(l.deliveries - 1) < stamp(l.deliveries);
    Pow2Monotone(count + 1, stamp(l.deliveries));
    Pow2Monotone(count + 1, MAX_RETRIES);
  }

  /** A delivery comes back, and its message's ledger becomes l. */
  lemma ReturnKeepsLimits(q: Queue, q': Queue, attempt: nat, l: Ledger)
    requires Conserved(q) && Limited(q) && attempt in q.unacked
    requires q'.stamp == q.stamp && q'.unacked == q.unacked - {attempt} &&
             q'.ledgers == q.ledgers[q.unacked[attempt] := l]
    requires forall m | m != q.unacked[attempt] :: m in q'.ready <==> m in q.ready
    requires l.requeues <= MAX_RETRIES && l.slept < Pow2(MAX_RETRIES)
    requires q.unacked[attempt] in q'.ready ==> WithinLimits(l, q.stamp(l.deliveries))
    ensures Limited(q')
  {
    OtherHandsKeepTheirs(q, attempt);
    forall m | m in q'.ledgers
      ensures MessageLimited(q', m)
    {
      if m != q.unacked[attempt] { assert MessageLimited(q, m); }
    }
  }

  lemma SettleKeepsLimits(q: Queue, attempt: nat, outcome: Outcome)
    requires Good(q) && CountsEveryDelivery(q.stamp) && Limited(q) && attempt in q.unacked
    ensures Limited(Settled(q, attempt, Decide(outcome, q.deliveries[attempt].count)))
  {
    var m, count := q.unacked[attempt], q.deliveries[attempt].count;
    var verdict := Decide(outcome, count);
    assert InHand(q, m) && m !in q.ready && MessageLimited(q, m);
    if verdict.Requeue? { RequeueKeepsLimits(q.stamp, q.ledgers[m], count); }
    ReturnKeepsLimits(q, Settled(q, attempt, verdict), attempt, LedgerAfter(q.ledgers[m], verdict));
  }

  lemma LaterCountIsWithinLimits(stamp: nat -> nat, l: Ledger)
    requires CountsEveryDelivery(stamp) && l.deliveries > 0 && WithinLimits(l, stamp(l.deliveries - 1))
    ensures WithinLimits(l, stamp(l.deliveries))
  {
    assert stamp(l.deliveries - 1) < stamp(l.deliveries);
    Pow2Monotone(stamp(l.deliveries - 1), stamp(l.deliveries));
  }

  lemma DropKeepsLimits(q: Queue, attempt: nat)
    requires Conserved(q) && CountsEveryDelivery(q.stamp) && Limited(q) && attempt in q.unacked
    ensures Limited(Dropped(q, attempt))
  {
    var m := q.unacked[attempt];
    var l := q.ledgers[m];
    assert InHand(q, m) && MessageLimited(q, m);
    LaterCountIsWithinLimits(q.stamp, l);
    ReturnKeepsLimits(q, Dropped(q, attempt), attempt, l.(drops := l.drops + 1));
  }

  lemma DeliverKeepsLimits(q: Queue, attempt: nat, message: nat)
    requires Good(q) && Limited(q)
    ensures Limited(Delivered(q, attempt, message))
  {
    var q' := Delivered(q, attempt, message);
    HandsAfterDelivery(q, attempt, message);
    forall m | m in q'.ledgers
      ensures MessageLimited(q', m)
    {
      assert m in q.ledgers && MessageLimited(q, m);
    }
  }

  lemma HandsAfterDelivery(q: Queue, attempt: nat, message: nat)
    requires Good(q)
    ensures forall m :: InHand(Delivered(q, attempt, message), m)
                        <==> InHand(q, m) || (m == message && message in q.ready && attempt !in q.deliveries)
  {
    var q' := Delivered(q, attempt, message);
    forall m | InHand(q, m)
      ensures InHand(q', m)
    {
      var a :| a in q.unacked && q.unacked[a] == m;
      assert q'.unacked[a] == m;
    }
    if message in q.ready && attempt !in q.deliveries {
      assert q'.unacked[attempt] == message;
    }
  }

  lemma NextKeepsLimits(q: Queue, s: Step)
    requires Good(q) && CountsEveryDelivery(q.stamp) && Limited(q)
    ensures Limited(Next(q, s))
  {
    if s.Settle? && s.attempt in q.unacked {
      SettleKeepsLimits(q, s.attempt, s.outcome);
    } else if s.Drop? && s.attempt in q.unacked {
      DropKeepsLimits(q, s.attempt);
    } else if s.Deliver? {
      DeliverKeepsLimits(q, s.attempt, s.message);
    }
  }

  lemma {:induction false} RunIsLimited(stamp: nat -> nat, steps: seq<Step>)
    requires CountsEveryDelivery(stamp)
    ensures Limited(Run(Next, NewQueue(stamp), steps))
  {
    if steps != [] {
      var before := steps[..|steps| - 1];
      RunIsLimited(stamp, before);
      MessagesAreConserved(stamp, before);
      NextKeepsLimits(Run(Next, NewQueue(stamp), before), steps[|steps| - 1]);
    }
  }

  /** If the broker counts every redelivery, then on every run and for every message: at most three requeues, at most
      four deliveries plus one for every lost channel, and at most 1 + 2 + 4 seconds of backoff. */
  lemma RetriesAreLimited(stamp: nat -> nat, steps: seq<Step>, message: nat)
    requires CountsEveryDelivery(stamp)
    ensures var q := Run(Next, NewQueue(stamp), steps);
            message in q.ledgers ==>
              var l := q.ledgers[message];
              l.requeues <= 3 && l.deliveries <= 4 + l.drops && l.slept <= 7
  {
    RunIsLimited(stamp, steps);
    MessagesAreConserved(stamp, steps);
    assert Pow2(MAX_RETRIES - 1) == 4;
  }

  /** Message 0 has failed and been requeued n times, and waits for its next delivery. */
  ghost predicate Waiting(q: Queue, n: nat, slept: nat)
  {
    && q.ready == {0} && q.unacked == map[] && q.dead == {} && q.ledgers == map[0 := Ledger(n, n, 0, slept)]
    && forall a | a in q.deliveries :: a < n
  }

  lemma WaitsOnceMore(q: Queue, n: nat, slept: nat)
    requires Waiting(q, n, slept) && q.stamp(n) == n < 3
    ensures Waiting(Next(Next(q, Deliver(n, 0)), Settle(n, Failed)), n + 1, slept + if n == 0 then 1 else 2 * n)
  {
    assert Pow2(1) == 2 && Pow2(2) == 4;
    var q' := Next(q, Deliver(n, 0));
    assert q'.ready == {} && q'.unacked == map[n := 0] && q'.ledgers == map[0 := Ledger(n + 1, n, 0, slept)];
  }

  lemma DiesAtLast(q: Queue, slept: nat)
    requires Waiting(q, 3, slept) && q.stamp(3) == 3
    ensures var q' := Next(Next(q, Deliver(3, 0)), Settle(3, Failed));
            q'.dead == {0} && q'.ready == {} && q'.ledgers == map[0 := Ledger(4, 3, 0, slept)]
  {
    var q' := Next(q, Deliver(3, 0));
    assert q'.ready == {} && q'.unacked == map[3 := 0] && q'.ledgers == map[0 := Ledger(4, 3, 0, slept)];
  }

  /** Message 0 is published, and fails n times. */
  function Failures(n: nat): seq<Step>
  {
    if n == 0 then [Publish(0)] else Failures(n - 1) + [Deliver(n - 1, 0)] + [Settle(n - 1, Failed)]
  }

  lemma {:induction false} WaitsAfterFailures(stamp: nat -> nat, n: nat)
    requires n <= 3 && forall k: nat | k < 4 :: stamp(k) == k
    ensures Waiting(Run(Next, NewQueue(stamp), Failures(n)), n,
                    if n == 0 then 0 else if n == 1 then 1 else if n == 2 then 3 else 7)
  {
    if n == 0 {
      RunOne(Next, NewQueue(stamp), Publish(0));
    } else {
      WaitsAfterFailures(stamp, n - 1);
      MessagesAreConserved(stamp, Failures(n - 1));
      RunTwice(Next, NewQueue(stamp), Failures(n - 1), Deliver(n - 1, 0), Settle(n - 1, Failed));
      WaitsOnceMore(Run(Next, NewQueue(stamp), Failures(n - 1)), n - 1, if n == 1 then 0 else if n == 2 then 1 else 3);
    }
  }

  /** The limits are reached: where the header counts the redeliveries one by one, a message that fails four times has
      been requeued three times, delivered four times and backed off for seven seconds when it is dead-lettered. */
  lemma FourFailuresReachTheLimits(stamp: nat -> nat)
    requires forall k: nat | k < 4 :: stamp(k) == k
    ensures var q := Run(Next, NewQueue(stamp), Failures(4));
            q.dead == {0} && q.ready == {} && q.ledgers == map[0 := Ledger(4, 3, 0, 7)]
  {
    WaitsAfterFailures(stamp, 3);
    MessagesAreConserved(stamp, Failures(3));
    RunTwice(Next, NewQueue(stamp), Failures(3), Deliver(3, 0), Settle(3, Failed));
    DiesAtLast(Run(Next, NewQueue(stamp), Failures(3)), 7);
  }

  /** On no run is a message that loses no channel delivered more than n times. */
  ghost predicate DeliveriesEndWithin(stamp: nat -> nat, n: nat)
  {
    forall steps, m | Undropped(stamp, steps, m) :: Run(Next, NewQueue(stamp), steps).ledgers[m].deliveries <= n
  }

  predicate Undropped(stamp: nat -> nat, steps: seq<Step>, message: nat)
  {
    var q := Run(Next, NewQueue(stamp), steps);
    message in q.ledgers && q.ledgers[message].drops == 0
  }

  /** Whatever the broker counts: retrying is bounded if and only if some redelivery would carry a count at the
      limit. */
  lemma RetriesEndIffSomeCountReachesTheLimit(stamp: nat -> nat)
    ensures (exists n: nat :: DeliveriesEndWithin(stamp, n)) <==> (exists k: nat :: stamp(k) >= 3)
  {
    if k: nat :| stamp(k) >= MAX_RETRIES {
      forall steps, m | Undropped(stamp, steps, m)
        ensures Run(Next, NewQueue(stamp), steps).ledgers[m].deliveries <= k + 1
      {
        NoDeliveryAfterTheLimit(stamp, k, steps, m);
      }
      assert DeliveriesEndWithin(stamp, k + 1);
    } else {
      forall n: nat ensures !DeliveriesEndWithin(stamp, n)
      {
        var steps := RetriedFor(stamp, n + 1);
        assert Undropped(stamp, steps, 0);
      }
    }
  }

  predicate WithinDeliveries(q: Queue, message: nat, k: nat)
    requires message in q.ledgers
  {
    q.ledgers[message].deliveries <= k + if message in q.ready then 0 else 1
  }

  lemma StepStaysWithinDeliveries(q: Queue, s: Step, message: nat, k: nat)
    requires Good(q) && q.stamp(k) >= MAX_RETRIES
    requires message in q.ledgers && WithinDeliveries(q, message, k)
    requires Next(q, s).ledgers[message].drops == q.ledgers[message].drops
    ensures WithinDeliveries(Next(q, s), message, k)
  {
    if s.Settle? && s.attempt in q.unacked { assert InHand(q, q.unacked[s.attempt]); }
  }

  lemma {:induction false} NoDeliveryAfterTheLimit(stamp: nat -> nat, k: nat, steps: seq<Step>, message: nat)
    requires stamp(k) >= MAX_RETRIES && Undropped(stamp, steps, message)
    ensures WithinDeliveries(Run(Next, NewQueue(stamp), steps), message, k)
  {
    if steps != [] {
      var before, s := steps[..|steps| - 1], steps[|steps| - 1];
      var q := Run(Next, NewQueue(stamp), before);
      MessagesAreConserved(stamp, before);
      if message in q.ledgers {
        DropsOnlyGrow(q, s, message);
        NoDeliveryAfterTheLimit(stamp, k, before, message);
        StepStaysWithinDeliveries(q, s, message, k);
      }
    }
  }

  lemma DropsOnlyGrow(q: Queue, s: Step, message: nat)
    requires message in q.ledgers
    ensures message in Next(q, s).ledgers && q.ledgers[message].drops <= Next(q, s).ledgers[message].drops
  {
  }

  /** Message 0 has failed n times and waits for its next delivery. */
  ghost predicate FailedSoOften(q: Queue, n: nat)
  {
    && Good(q) && 0 in q.ledgers && 0 in q.ready && q.ledgers[0].deliveries == n && q.ledgers[0].drops == 0
    && forall a | a in q.deliveries :: a < n
  }

  lemma FailsOnceMore(q: Queue, n: nat)
    requires FailedSoOften(q, n) && q.stamp(n) < MAX_RETRIES
    ensures FailedSoOften(Next(Next(q, Deliver(n, 0)), Settle(n, Failed)), n + 1)
  {
    NextKeeps(q, Deliver(n, 0));
    NextKeeps(Next(q, Deliver(n, 0)), Settle(n, Failed));
  }

  lemma RunTwice(next: (Queue, Step) -> Queue, q: Queue, steps: seq<Step>, s: Step, t: Step)
    ensures Run(next, q, steps + [s] + [t]) == next(next(Run(next, q, steps), s), t)
  {
    RunSnoc(next, q, steps, s);
    RunSnoc(next, q, steps + [s], t);
  }

  lemma FirstPublish(stamp: nat -> nat)
    ensures FailedSoOften(Run(Next, NewQueue(stamp), [Publish(0)]), 0)
  {
    RunOne(Next, NewQueue(stamp), Publish(0));
    PublishKeeps(NewQueue(stamp), 0);
  }

  /** A run in which message 0 fails n times. */
  lemma {:induction false} RetriedFor(stamp: nat -> nat, n: nat) returns (steps: seq<Step>)
    requires forall k: nat :: stamp(k) < MAX_RETRIES
    ensures FailedSoOften(Run(Next, NewQueue(stamp), steps), n)
  {
    if n == 0 {
      steps := [Publish(0)];
      FirstPublish(stamp);
    } else {
      var before := RetriedFor(stamp, n - 1);
      MessagesAreConserved(stamp, before);
      FailsOnceMore(Run(Next, NewQueue(stamp), before), n - 1);
      RunTwice(Next, NewQueue(stamp), before, Deliver(n - 1, 0), Settle(n - 1, Failed));
      steps := before + [Deliver(n - 1, 0)] + [Settle(n - 1, Failed)];
    }
  }

  // ---- reading the retry count ----

  datatype CountEntry = Absent | Int64(value: int) | OtherType

  datatype DeathEntry = Table(count: CountEntry) | NotATable

  datatype DeathHeader = NoHeaders | NoDeaths | NotAList | List(entries: seq<DeathEntry>)

  predicate HasCount(e: DeathEntry) { e.Table? && e.count.Int64? }

  function FirstCount(entries: seq<DeathEntry>): int
  {
    if entries == [] then 0
    else if HasCount(entries[0]) then entries[0].count.value
    else FirstCount(entries[1..])
  }

  /** The retry count a header stands for. */
  function HeaderCount(header: DeathHeader): int
  {
    if header.List? then FirstCount(header.entries) else 0
  }

  lemma {:induction false} FirstCountIsOfTheFirstRecord(entries: seq<DeathEntry>, k: nat)
    requires k < |entries| && HasCount(entries[k]) && forall j | 0 <= j < k :: !HasCount(entries[j])
    ensures FirstCount(entries) == entries[k].count.value
  {
    if k > 0 {
      assert entries[1..][k - 1] == entries[k];
      FirstCountIsOfTheFirstRecord(entries[1..], k - 1);
    }
  }

  method RetryCountFromHeaders(header: DeathHeader) returns (count: int)
    ensures count == HeaderCount(header)
    ensures (header.List? ==> forall e | e in header.entries :: !HasCount(e)) ==> count == 0
    ensures forall k | header.List? && 0 <= k < |header.entries| && HasCount(header.entries[k])
                       && (forall j | 0 <= j < k :: !HasCount(header.entries[j])) ::
              count == header.entries[k].count.value
  {
    if !header.List? { return 0; }
    var i := 0;
    while i < |header.entries|
      invariant 0 <= i <= |header.entries|
      invariant forall j | 0 <= j < i :: !HasCount(header.entries[j])
      invariant FirstCount(header.entries[i..]) == FirstCount(header.entries)
    {
      if HasCount(header.entries[i]) { return header.entries[i].count.value; }
      i := i + 1;
    }
    return 0;
  }
}
