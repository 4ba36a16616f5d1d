/** Notifications from task.assigned events: any number of consumers take deliveries from the queue, claim the event's
    idempotency key, insert the notification, and settle. */
module Notifications {
  import opened Prelude
  import opened KeyStore
  import opened Runs
  import opened Counting
  import Broker

  const DAY: int := 86400 // seconds

  function Days(n: nat): int { 86400 * n }

  datatype Event = Event(id: string, assignedTo: string, company: string, task: string, payload: string)

  datatype Body = BadJson | Assigned(event: Event)

  datatype Note = Note(user: string, company: string, kind: string, title: string, message: string, metadata: string)

  /** How the claim of the key ended; an unanswered one may still have taken it. */
  datatype Claim = Unclaimed | Won | Refused | Errored(took: bool)
  {
    predicate Took() { Won? || (Errored? && took) }
  }

  datatype Insert = NotTried | Inserted | InsertFailed(stored: bool)

  datatype Stage = Claiming | Inserting | Settling(outcome: Broker.Outcome) | Done(outcome: Broker.Outcome)

  /** One delivery in the hands of one consumer. */
  datatype Attempt = Attempt(message: nat, count: nat, body: Body, stage: Stage, claim: Claim, claimedAt: int,
    insert: Insert, insertedAt: int)

  /** Rows carry the attempt that inserted them. nilIsError says whether the key store's client reports an occupied
      key as an error. */
  datatype World = World(nilIsError: bool, now: int, claims: map<string, Slot<nat>>, rows: map<nat, Note>,
                         bodies: map<nat, Body>, attempts: map<nat, Attempt>, queue: Broker.Queue)

  datatype Step =
    | Publish(message: nat, body: Body)
    | Deliver(attempt: nat, message: nat)
    | Advance(attempt: nat, fate: Fate)
    | Drop(attempt: nat)
    | Tick(amount: nat)

  function Start(nilIsError: bool, stamp: nat -> nat, now: int): World
  {
    World(nilIsError, now, map[], map[], map[], map[], Broker.NewQueue(stamp))
  }

  function Key(id: string): string { "event:" + id }

  lemma KeyTellsEvent(a: string, b: string)
    requires Key(a) == Key(b)
    ensures a == b
  {
    assert a == Key(a)[6..];
    assert b == Key(b)[6..];
  }

  predicate WellFormed(e: Event) { e.id != "" && e.assignedTo != "" && e.company != "" }

  function NoteFor(e: Event): Note
  {
    Note(e.assignedTo, e.company, "task_assigned", "New task assigned to you",
         "Task " + e.task + " has been assigned to you", e.payload)
  }

  function FirstStage(body: Body): Stage
  {
    if body.BadJson? then Settling(Broker.Malformed)
    else if !WellFormed(body.event) then Settling(Broker.Failed)
    else Claiming
  }

  function NewAttempt(w: World, attempt: nat, message: nat): Attempt
    requires message in w.bodies
  {
    var count := if attempt in Broker.Delivered(w.queue, attempt, message).deliveries
                 then Broker.Delivered(w.queue, attempt, message).deliveries[attempt].count else 0;
    Attempt(message, count, w.bodies[message], FirstStage(w.bodies[message]), Unclaimed, w.now, NotTried, w.now)
  }

  function ClaimOf(occupied: bool, fate: Fate): Claim
  {
    if fate.Lost? then Errored(fate.applied && !occupied) else if occupied then Refused else Won
  }

  function SlotOf(w: World, a: Attempt): Slot<nat>
    requires a.body.Assigned?
  {
    Lookup(w.claims, Key(a.body.event.id))
  }

  /** The attempt after its next step. An error and an occupied key reported as one both fall through to the
      insert. */
  function AttemptAfter(a: Attempt, occupied: bool, nilIsError: bool, now: int, fate: Fate): Attempt
  {
    match a.stage
    case Claiming =>
      var claim := ClaimOf(occupied, fate);
      a.(claim := claim, claimedAt := now,
         stage := if claim.Refused? && !nilIsError then Settling(Broker.Processed) else Inserting)
    case Inserting =>
      a.(insert := if fate.Lost? then InsertFailed(fate.applied) else Inserted, insertedAt := now,
         stage := Settling(if fate.Lost? then Broker.Failed else Broker.Processed))
    case Settling(outcome) => a.(stage := Done(outcome))
    case Done(_) => a
  }

  function ClaimsAfter(w: World, x: nat, a: Attempt, fate: Fate): map<string, Slot<nat>>
  {
    if a.stage.Claiming? && a.body.Assigned? && fate.Applied()
    then w.claims[Key(a.body.event.id) := SetNX(SlotOf(w, a), x, DAY, w.now)]
    else w.claims
  }

  function RowsAfter(w: World, x: nat, a: Attempt, fate: Fate): map<nat, Note>
  {
    if a.stage.Inserting? && a.body.Assigned? && fate.Applied() then w.rows[x := NoteFor(a.body.event)] else w.rows
  }

  /** The replies of Ack and Nack are ignored. */
  function QueueAfter(w: World, x: nat, a: Attempt, fate: Fate): Broker.Queue
  {
    if a.stage.Settling? && fate.Applied() then Broker.Settled(w.queue, x, Broker.Decide(a.stage.outcome, a.count))
    else w.queue
  }

  function Occupied(w: World, a: Attempt): bool { a.body.Assigned? && SlotOf(w, a).Occupied(w.now) }

  function Advanced(w: World, x: nat, fate: Fate): World
    requires x in w.attempts
  {
    var a := w.attempts[x];
    w.(claims := ClaimsAfter(w, x, a, fate), rows := RowsAfter(w, x, a, fate), queue := QueueAfter(w, x, a, fate),
       attempts := w.attempts[x := AttemptAfter(a, Occupied(w, a), w.nilIsError, w.now, fate)])
  }

  function Next(w: World, s: Step): World
  {
    match s
    case Publish(message, body) =>
      if message in w.bodies then w
      else w.(bodies := w.bodies[message := body], queue := Broker.Published(w.queue, message))
    case Deliver(x, message) =>
      if message !in w.queue.ready || message !in w.queue.ledgers || message !in w.bodies || x in w.queue.deliveries
        then w
      else w.(attempts := w.attempts[x := NewAttempt(w, x, message)], queue := Broker.Delivered(w.queue, x, message))
    case Advance(x, fate) => if x in w.attempts then Advanced(w, x, fate) else w
    case Drop(x) => w.(queue := Broker.Dropped(w.queue, x))
    case Tick(amount) => w.(now := w.now + amount)
  }

  // ---- claims of one event ----

  predicate On(w: World, x: nat, id: string)
  {
    x in w.attempts && w.attempts[x].body.Assigned? && w.attempts[x].body.event.id == id
  }

  predicate Taker(w: World, x: nat, id: string) { On(w, x, id) && w.attempts[x].claim.Took() }

  /** Attempt x's key had run out when y claimed. */
  predicate Before(w: World, x: nat, y: nat)
    requires x in w.attempts && y in w.attempts
  {
    w.attempts[x].claimedAt + DAY <= w.attempts[y].claimedAt
  }

  /** Of two takes of the event's key, one came a day after the other; the last one owns the key. */
  ghost predicate TakesApart(w: World, id: string)
  {
    var slot := Lookup(w.claims, Key(id));
    && (forall x | Taker(w, x, id) :: w.attempts[x].claimedAt <= w.now)
    && (forall x, y | Taker(w, x, id) && Taker(w, y, id) && x != y :: Before(w, x, y) || Before(w, y, x))
    && (slot.Stored? ==>
          && Taker(w, slot.value, id) && slot.deadline == Until(w.attempts[slot.value].claimedAt + DAY)
          && (forall x | Taker(w, x, id) && x != slot.value :: Before(w, x, slot.value)))
    && (slot.Empty? ==> forall x :: !Taker(w, x, id))
  }

  /** Attempt y took the event's key and the key was in force at the given time. */
  predicate InForce(w: World, y: nat, id: string, time: int)
  {
    Taker(w, y, id) && w.attempts[y].claimedAt <= time < w.attempts[y].claimedAt + DAY
  }

  ghost predicate HeldAt(w: World, id: string, time: int) { exists y :: InForce(w, y, id, time) }

  ghost predicate RefusedByAHolder(w: World, id: string)
  {
    forall x | On(w, x, id) && w.attempts[x].claim.Refused? :: HeldAt(w, id, w.attempts[x].claimedAt)
  }

  /** For the given event, no claim is made and none is lost. */
  ghost predicate ClaimsStay(w: World, w': World, id: string)
  {
    && Lookup(w'.claims, Key(id)) == Lookup(w.claims, Key(id)) && w.now <= w'.now
    && (forall x | Taker(w, x, id) :: Taker(w', x, id) && w'.attempts[x].claimedAt == w.attempts[x].claimedAt)
    && (forall x | Taker(w', x, id) :: Taker(w, x, id))
    && (forall x | On(w', x, id) && w'.attempts[x].claim.Refused? ::
          On(w, x, id) && w.attempts[x].claim.Refused? && w'.attempts[x].claimedAt == w.attempts[x].claimedAt)
  }

  lemma QuietStepKeepsTakers(w: World, w': World, id: string)
    requires TakesApart(w, id) && ClaimsStay(w, w', id)
    ensures forall x | Taker(w', x, id) :: w'.attempts[x].claimedAt <= w'.now
    ensures forall x, y | Taker(w', x, id) && Taker(w', y, id) && x != y :: Before(w', x, y) || Before(w', y, x)
  {
    forall x, y | Taker(w', x, id) && Taker(w', y, id) && x != y
      ensures Before(w', x, y) || Before(w', y, x)
    {
      assert Before(w, x, y) || Before(w, y, x);
    }
  }

  lemma QuietStepKeepsTakesApart(w: World, w': World, id: string)
    requires TakesApart(w, id) && ClaimsStay(w, w', id)
    ensures TakesApart(w', id)
  {
    QuietStepKeepsTakers(w, w', id);
    var slot := Lookup(w.claims, Key(id));
    forall x | slot.Stored? && Taker(w', x, id) && x != slot.value
      ensures Before(w', x, slot.value)
    {
      assert Before(w, x, slot.value);
    }
  }

  lemma QuietStepKeepsRefusals(w: World, w': World, id: string)
    requires RefusedByAHolder(w, id) && ClaimsStay(w, w', id)
    ensures RefusedByAHolder(w', id)
  {
    forall x | On(w', x, id) && w'.attempts[x].claim.Refused?
      ensures HeldAt(w', id, w'.attempts[x].claimedAt)
    {
      var y :| InForce(w, y, id, w.attempts[x].claimedAt);
      assert InForce(w', y, id, w'.attempts[x].claimedAt);
    }
  }

  lemma QuietStepKeepsClaims(w: World, w': World, id: string)
    requires TakesApart(w, id) && RefusedByAHolder(w, id) && ClaimsStay(w, w', id)
    ensures TakesApart(w', id) && RefusedByAHolder(w', id)
  {
    QuietStepKeepsTakesApart(w, w', id);
    QuietStepKeepsRefusals(w, w', id);
  }

  /** Attempt x makes its claim and nothing else moves. */
  ghost predicate OnlyClaims(w: World, w': World, x: nat, fate: Fate)
  {
    && x in w.attempts && w.attempts[x].stage.Claiming? && w.attempts[x].claim.Unclaimed?
    && w.attempts[x].body.Assigned?
    && w' == Advanced(w, x, fate)
  }

  lemma ClaimLeavesOtherEvents(w: World, w': World, x: nat, fate: Fate, id: string)
    requires OnlyClaims(w, w', x, fate) && w.attempts[x].body.event.id != id
    ensures ClaimsStay(w, w', id)
  {
    if Key(w.attempts[x].body.event.id) == Key(id) { KeyTellsEvent(w.attempts[x].body.event.id, id); }
  }

  /** Apart from attempt x the takers of the event's key are the same. */
  ghost predicate SameOtherTakers(w: World, w': World, x: nat, id: string)
  {
    && w'.now == w.now && !Taker(w, x, id)
    && (forall y | y != x :: Taker(w', y, id) <==> Taker(w, y, id))
    && (forall y | y != x && Taker(w, y, id) :: y in w'.attempts && w'.attempts[y] == w.attempts[y])
  }

  lemma NoNewTaker(w: World, w': World, x: nat, id: string)
    requires TakesApart(w, id) && SameOtherTakers(w, w', x, id)
    requires !Taker(w', x, id) && Lookup(w'.claims, Key(id)) == Lookup(w.claims, Key(id))
    ensures TakesApart(w', id)
  {
  }

  /** Attempt x takes the free key of the event, and nobody else does. */
  ghost predicate Takes(w: World, w': World, x: nat, id: string)
  {
    && SameOtherTakers(w, w', x, id) && !Lookup(w.claims, Key(id)).Occupied(w.now)
    && Taker(w', x, id) && w'.attempts[x].claimedAt == w.now
    && Lookup(w'.claims, Key(id)) == Stored(x, Until(w.now + DAY))
  }

  lemma EarlierTakersCameBefore(w: World, w': World, x: nat, id: string, y: nat)
    requires TakesApart(w, id) && Takes(w, w', x, id) && Taker(w', y, id) && y != x
    ensures Before(w', y, x)
  {
    var slot := Lookup(w.claims, Key(id));
    assert Taker(w, y, id) && slot.Stored?;
    assert y != slot.value ==> Before(w, y, slot.value);
  }

  lemma NewTaker(w: World, w': World, x: nat, id: string)
    requires TakesApart(w, id) && Takes(w, w', x, id)
    ensures TakesApart(w', id)
  {
    forall y | Taker(w', y, id) && y != x
      ensures Before(w', y, x)
    {
      EarlierTakersCameBefore(w, w', x, id, y);
    }
  }

  lemma ClaimShape(w: World, w': World, x: nat, fate: Fate)
    requires OnlyClaims(w, w', x, fate)
    ensures var id := w.attempts[x].body.event.id;
            && SameOtherTakers(w, w', x, id)
            && (Taker(w', x, id) ==> Takes(w, w', x, id))
            && (!Taker(w', x, id) ==> Lookup(w'.claims, Key(id)) == Lookup(w.claims, Key(id)))
  {
  }

  lemma ClaimKeepsTakesApart(w: World, w': World, x: nat, fate: Fate)
    requires OnlyClaims(w, w', x, fate)
    requires TakesApart(w, w.attempts[x].body.event.id)
    ensures TakesApart(w', w.attempts[x].body.event.id)
  {
    var id := w.attempts[x].body.event.id;
    ClaimShape(w, w', x, fate);
    if Taker(w', x, id) { NewTaker(w, w', x, id); } else { NoNewTaker(w, w', x, id); }
  }

  lemma ClaimKeepsRefusals(w: World, w': World, x: nat, fate: Fate)
    requires OnlyClaims(w, w', x, fate)
    requires TakesApart(w, w.attempts[x].body.event.id) && RefusedByAHolder(w, w.attempts[x].body.event.id)
    ensures RefusedByAHolder(w', w.attempts[x].body.event.id)
  {
    var id := w.attempts[x].body.event.id;
    var slot := Lookup(w.claims, Key(id));
    forall y | On(w', y, id) && w'.attempts[y].claim.Refused?
      ensures HeldAt(w', id, w'.attempts[y].claimedAt)
    {
      if y == x {
        assert InForce(w', slot.value, id, w.now);
      } else {
        var z :| InForce(w, z, id, w.attempts[y].claimedAt);
        assert InForce(w', z, id, w.attempts[y].claimedAt);
      }
    }
  }

  // ---- the whole invariant ----

  ghost predicate ClaimsAgree(w: World)
  {
    forall id: string :: TakesApart(w, id) && RefusedByAHolder(w, id)
  }

  /** How far an attempt has got agrees with what it claimed and inserted. */
  predicate StageAgrees(nilIsError: bool, a: Attempt)
  {
    && (a.stage.Claiming? ==> a.claim.Unclaimed? && a.insert.NotTried? && Claimable(a.body))
    && (a.stage.Inserting? ==> !a.claim.Unclaimed? && a.insert.NotTried?)
    && (!a.insert.NotTried? ==> !a.claim.Unclaimed?)
    && (!a.claim.Unclaimed? ==> Claimable(a.body))
    && (a.claim.Refused? && (a.stage.Inserting? || !a.insert.NotTried?) ==> nilIsError)
    && (a.claim.Took() && !a.stage.Inserting? ==> !a.insert.NotTried?)
    && (Settles(a) ==>
          && (a.stage.outcome.Processed? <==> a.insert.Inserted? || (a.claim.Refused? && !nilIsError))
          && (a.stage.outcome.Malformed? <==> a.body.BadJson?)
          && (a.stage.outcome.Failed? ==> a.insert.InsertFailed? || (a.body.Assigned? && !WellFormed(a.body.event))))
  }

  predicate Claimable(body: Body) { body.Assigned? && WellFormed(body.event) }

  predicate Settles(a: Attempt) { a.stage.Settling? || a.stage.Done? }

  /** The row an attempt is known to have inserted, or may have. */
  predicate RowAgrees(w: World, x: nat)
    requires x in w.attempts
  {
    var a := w.attempts[x];
    && (x in w.rows <==> a.insert.Inserted? || (a.insert.InsertFailed? && a.insert.stored))
    && (x in w.rows ==> a.body.Assigned? && w.rows[x] == NoteFor(a.body.event))
  }

  ghost predicate AttemptsAgree(w: World)
  {
    && (forall x | x in w.attempts :: StageAgrees(w.nilIsError, w.attempts[x]) && RowAgrees(w, x))
    && (forall x | x in w.rows :: x in w.attempts)
  }

  /** Attempt x settled the message with a verdict that the given place in the queue follows from. */
  predicate SettledAs(w: World, m: nat, x: nat, processed: bool)
  {
    && x in w.attempts && w.attempts[x].message == m && w.attempts[x].stage.Done?
    && (if processed then w.attempts[x].stage.outcome.Processed?
        else Broker.Decide(w.attempts[x].stage.outcome, w.attempts[x].count).DeadLetter?)
  }

  ghost predicate SettledBySomebody(w: World, m: nat, processed: bool) { exists x :: SettledAs(w, m, x, processed) }

  ghost predicate Good(w: World)
  {
    ClaimsAgree(w) && AttemptsAgree(w) && DeliveriesAgree(w) && SettlementsAgree(w) && Broker.Good(w.queue)
  }

  predicate ClaimsNow(w: World, s: Step)
  {
    s.Advance? && s.attempt in w.attempts && w.attempts[s.attempt].stage.Claiming?
  }

  lemma OtherStepsClaimNothing(w: World, s: Step, id: string)
    requires w.queue.deliveries.Keys == w.attempts.Keys && !ClaimsNow(w, s)
    ensures ClaimsStay(w, Next(w, s), id)
  {
    if s.Advance? && s.attempt in w.attempts { AdvanceClaimsNothing(w, s.attempt, s.fate, id); }
  }

  lemma AdvanceClaimsNothing(w: World, x: nat, fate: Fate, id: string)
    requires x in w.attempts && !w.attempts[x].stage.Claiming?
    ensures ClaimsStay(w, Advanced(w, x, fate), id)
  {
  }

  lemma ClaimKeepsClaims(w: World, x: nat, fate: Fate, id: string)
    requires x in w.attempts && OnlyClaims(w, Advanced(w, x, fate), x, fate) && TakesApart(w, id) &&
             RefusedByAHolder(w, id)
    ensures TakesApart(Advanced(w, x, fate), id) && RefusedByAHolder(Advanced(w, x, fate), id)
  {
    var w' := Advanced(w, x, fate);
    if id == w.attempts[x].body.event.id {
      ClaimKeepsTakesApart(w, w', x, fate);
      ClaimKeepsRefusals(w, w', x, fate);
    } else {
      ClaimLeavesOtherEvents(w, w', x, fate, id);
      QuietStepKeepsClaims(w, w', id);
    }
  }

  lemma NextKeepsClaims(w: World, s: Step)
    requires ClaimsAgree(w) && AttemptsAgree(w) && w.queue.deliveries.Keys == w.attempts.Keys
    ensures ClaimsAgree(Next(w, s))
  {
    forall id: string
      ensures TakesApart(Next(w, s), id) && RefusedByAHolder(Next(w, s), id)
    {
      if ClaimsNow(w, s) {
        ClaimKeepsClaims(w, s.attempt, s.fate, id);
      } else {
        OtherStepsClaimNothing(w, s, id);
        QuietStepKeepsClaims(w, Next(w, s), id);
      }
    }
  }

  lemma AttemptStaysInStep(a: Attempt, occupied: bool, nilIsError: bool, now: int, fate: Fate)
    requires StageAgrees(nilIsError, a)
    ensures StageAgrees(nilIsError, AttemptAfter(a, occupied, nilIsError, now, fate))
  {
  }

  lemma AdvanceKeepsRow(w: World, x: nat, fate: Fate, y: nat)
    requires x in w.attempts && y in w.attempts && StageAgrees(w.nilIsError, w.attempts[x]) && RowAgrees(w, y)
    ensures RowAgrees(Advanced(w, x, fate), y)
  {
  }

  lemma AdvanceKeepsAttempts(w: World, x: nat, fate: Fate)
    requires AttemptsAgree(w) && x in w.attempts
    ensures AttemptsAgree(Advanced(w, x, fate))
  {
    var w' := Advanced(w, x, fate);
    AttemptStaysInStep(w.attempts[x], Occupied(w, w.attempts[x]), w.nilIsError, w.now, fate);
    forall y | y in w'.attempts
      ensures RowAgrees(w', y)
    {
      AdvanceKeepsRow(w, x, fate, y);
    }
  }

  lemma NextKeepsAttempts(w: World, s: Step)
    requires AttemptsAgree(w) && w.queue.deliveries.Keys == w.attempts.Keys
    ensures AttemptsAgree(Next(w, s))
  {
    if s.Advance? && s.attempt in w.attempts {
      AdvanceKeepsAttempts(w, s.attempt, s.fate);
    } else {
      var w' := Next(w, s);
      forall y | y in w'.attempts
        ensures StageAgrees(w'.nilIsError, w'.attempts[y]) && RowAgrees(w', y)
      {
        if y in w.attempts { assert w'.attempts[y] == w.attempts[y] && RowAgrees(w, y); }
      }
    }
  }

  lemma NextKeepsBroker(w: World, s: Step)
    requires Broker.Good(w.queue)
    ensures Broker.Good(Next(w, s).queue)
  {
    match s
    case Publish(message, body) => Broker.PublishKeeps(w.queue, message);
    case Deliver(x, message) => Broker.DeliverKeeps(w.queue, x, message);
    case Advance(x, fate) =>
      if x in w.attempts && w.attempts[x].stage.Settling? {
        Broker.SettleKeeps(w.queue, x, Broker.Decide(w.attempts[x].stage.outcome, w.attempts[x].count));
      }
    case Drop(x) => Broker.DropKeeps(w.queue, x);
    case Tick(_) =>
  }

  /** Attempts keep their delivery, and finished ones keep everything. */
  ghost predicate AttemptsPersist(w: World, w': World)
  {
    forall x | x in w.attempts ::
      && x in w'.attempts && w'.attempts[x].message == w.attempts[x].message
      && (w.attempts[x].stage.Done? ==> w'.attempts[x] == w.attempts[x])
  }

  lemma SettlementsPersist(w: World, w': World)
    requires AttemptsPersist(w, w')
    ensures forall m, p | SettledBySomebody(w, m, p) :: SettledBySomebody(w', m, p)
  {
    forall m, p | SettledBySomebody(w, m, p)
      ensures SettledBySomebody(w', m, p)
    {
      var x :| SettledAs(w, m, x, p);
      assert SettledAs(w', m, x, p);
    }
  }

  /** The deliveries of the queue and the attempts of the consumers are the same. */
  ghost predicate DeliveriesAgree(w: World)
  {
    && w.queue.deliveries.Keys == w.attempts.Keys && w.queue.ledgers.Keys == w.bodies.Keys
    && (forall a | a in w.queue.unacked :: a in w.attempts && w.attempts[a].message == w.queue.unacked[a])
    && (forall a | a in w.attempts ::
         w.attempts[a].message in w.bodies && w.attempts[a].body == w.bodies[w.attempts[a].message])
  }

  /** What has been settled, an attempt settled. */
  ghost predicate SettlementsAgree(w: World)
  {
    && (forall m | m in w.queue.acked :: SettledBySomebody(w, m, true))
    && (forall m | m in w.queue.dead :: SettledBySomebody(w, m, false))
  }

  lemma AdvanceKeepsDeliveries(w: World, x: nat, fate: Fate)
    requires DeliveriesAgree(w) && x in w.attempts
    ensures DeliveriesAgree(Advanced(w, x, fate))
  {
    var w' := Advanced(w, x, fate);
    assert w'.queue.deliveries == w.queue.deliveries && w'.queue.ledgers.Keys == w.queue.ledgers.Keys;
    assert forall a | a in w'.queue.unacked :: a in w.queue.unacked && w'.queue.unacked[a] == w.queue.unacked[a];
    assert w'.attempts.Keys == w.attempts.Keys;
  }

  lemma AdvanceLeavesAttempts(w: World, x: nat, fate: Fate)
    requires x in w.attempts
    ensures AttemptsPersist(w, Advanced(w, x, fate))
  {
  }

  lemma NextKeepsDeliveries(w: World, s: Step)
    requires DeliveriesAgree(w)
    ensures DeliveriesAgree(Next(w, s)) && AttemptsPersist(w, Next(w, s))
  {
    match s
    case Publish(m, body) => PublishKeepsDeliveries(w, m, body);
    case Deliver(x, m) => DeliverKeepsDeliveries(w, x, m);
    case Advance(x, fate) =>
      if x in w.attempts {
        AdvanceKeepsDeliveries(w, x, fate);
        AdvanceLeavesAttempts(w, x, fate);
      }
    case Drop(x) => DropKeepsDeliveries(w, x);
    case Tick(_) =>
  }

  lemma PublishKeepsDeliveries(w: World, m: nat, body: Body)
    requires DeliveriesAgree(w)
    ensures DeliveriesAgree(Next(w, Publish(m, body))) && AttemptsPersist(w, Next(w, Publish(m, body)))
  {
  }

  lemma DropKeepsDeliveries(w: World, x: nat)
    requires DeliveriesAgree(w)
    ensures DeliveriesAgree(Next(w, Drop(x))) && AttemptsPersist(w, Next(w, Drop(x)))
  {
  }

  lemma DeliverKeepsDeliveries(w: World, x: nat, m: nat)
    requires DeliveriesAgree(w)
    ensures DeliveriesAgree(Next(w, Deliver(x, m))) && AttemptsPersist(w, Next(w, Deliver(x, m)))
  {
    var w' := Next(w, Deliver(x, m));
    if w' != w {
      assert w'.attempts.Keys == w.attempts.Keys + {x} && w'.queue.deliveries.Keys == w.queue.deliveries.Keys + {x};
      assert w'.queue.ledgers.Keys == w.queue.ledgers.Keys;
    }
  }

  lemma NextKeepsSettlements(w: World, s: Step)
    requires DeliveriesAgree(w) && SettlementsAgree(w) && AttemptsPersist(w, Next(w, s))
    ensures SettlementsAgree(Next(w, s))
  {
    var w' := Next(w, s);
    SettlementsPersist(w, w');
    if s.Advance? && s.attempt in w.attempts && w.attempts[s.attempt].stage.Settling? && s.attempt in w.queue.unacked {
      var m := w.queue.unacked[s.attempt];
      assert m in w'.queue.acked && m !in w.queue.acked ==> SettledAs(w', m, s.attempt, true);
      assert m in w'.queue.dead && m !in w.queue.dead ==> SettledAs(w', m, s.attempt, false);
    }
  }

  lemma NextKeeps(w: World, s: Step)
    requires Good(w)
    ensures Good(Next(w, s)) && Next(w, s).nilIsError == w.nilIsError
  {
    NextKeepsClaims(w, s);
    NextKeepsAttempts(w, s);
    NextKeepsDeliveries(w, s);
    NextKeepsSettlements(w, s);
    NextKeepsBroker(w, s);
  }

  lemma StartIsGood(nilIsError: bool, stamp: nat -> nat, now: int)
    ensures Good(Start(nilIsError, stamp, now))
  {
  }

  lemma {:induction false} RunKeeps(nilIsError: bool, stamp: nat -> nat, now: int, steps: seq<Step>)
    ensures var w := Run(Next, Start(nilIsError, stamp, now), steps); Good(w) && w.nilIsError == nilIsError
  {
    if steps == [] {
      StartIsGood(nilIsError, stamp, now);
    } else {
      var before := steps[..|steps| - 1];
      RunKeeps(nilIsError, stamp, now, before);
      NextKeeps(Run(Next, Start(nilIsError, stamp, now), before), steps[|steps| - 1]);
    }
  }

  // ---- what an ack and a dead letter mean ----

  /** The event has a notification. */
  ghost predicate Notified(w: World, id: string) { exists x :: NotifiedBy(w, x, id) }

  /** Attempt x stored a notification that tells its event's assignee, in the event's company, of the event. */
  predicate NotifiedBy(w: World, x: nat, id: string)
  {
    && On(w, x, id) && x in w.rows
    && var e := w.attempts[x].body.event;
       w.rows[x].user == e.assignedTo && w.rows[x].company == e.company && w.rows[x].metadata == e.payload
  }

  /** Attempt y took the event's key, and its insert failed or has not happened. */
  predicate TookInVain(w: World, y: nat, id: string)
  {
    Taker(w, y, id) && y !in w.rows && (w.attempts[y].stage.Inserting? || w.attempts[y].insert.InsertFailed?)
  }

  /** Over every delivery schedule: an acknowledged message was a well-formed event, and either its event has a
      notification, or some attempt took the event's key in vain; the latter only if an occupied key is not reported
      as an error. */
  lemma AckedMeansNotifiedOrTakenInVain(nilIsError: bool, stamp: nat -> nat, now: int, steps: seq<Step>, m: nat)
    requires m in Run(Next, Start(nilIsError, stamp, now), steps).queue.acked
    ensures var w := Run(Next, Start(nilIsError, stamp, now), steps);
            && m in w.bodies && Claimable(w.bodies[m])
            && var id := w.bodies[m].event.id;
               Notified(w, id) || (!nilIsError && exists y :: TookInVain(w, y, id))
  {
    var w := Run(Next, Start(nilIsError, stamp, now), steps);
    RunKeeps(nilIsError, stamp, now, steps);
    var x :| SettledAs(w, m, x, true);
    assert w.attempts[x].body == w.bodies[m] && StageAgrees(nilIsError, w.attempts[x]) && RowAgrees(w, x);
    var id := w.bodies[m].event.id;
    if w.attempts[x].insert.Inserted? {
      assert NotifiedBy(w, x, id);
    } else {
      assert RefusedByAHolder(w, id) && HeldAt(w, id, w.attempts[x].claimedAt);
      var y :| InForce(w, y, id, w.attempts[x].claimedAt);
      assert StageAgrees(nilIsError, w.attempts[y]) && RowAgrees(w, y);
      assert NotifiedBy(w, y, id) || TookInVain(w, y, id);
    }
  }

  /** Messages that carry the same event id carry the same event. */
  ghost predicate EventsAreTheirIds(w: World)
  {
    forall m, n | m in w.bodies && n in w.bodies && w.bodies[m].Assigned? && w.bodies[n].Assigned?
                  && w.bodies[m].event.id == w.bodies[n].event.id :: w.bodies[m] == w.bodies[n]
  }

  /** Then the notification is the one the acknowledged message asked for. */
  lemma AckedMeansItsOwnNotification(nilIsError: bool, stamp: nat -> nat, now: int, steps: seq<Step>, m: nat)
    requires var w := Run(Next, Start(nilIsError, stamp, now), steps); m in w.queue.acked && EventsAreTheirIds(w)
    ensures var w := Run(Next, Start(nilIsError, stamp, now), steps);
            && m in w.bodies && w.bodies[m].Assigned?
            && ((exists x :: x in w.rows && w.rows[x] == NoteFor(w.bodies[m].event))
                || (!nilIsError && exists y :: TookInVain(w, y, w.bodies[m].event.id)))
  {
    var w := Run(Next, Start(nilIsError, stamp, now), steps);
    AckedMeansNotifiedOrTakenInVain(nilIsError, stamp, now, steps, m);
    RunKeeps(nilIsError, stamp, now, steps);
    if x :| NotifiedBy(w, x, w.bodies[m].event.id) {
      assert RowAgrees(w, x) && w.attempts[x].body == w.bodies[w.attempts[x].message];
    }
  }

  /** A dead-lettered message could not be read, or an attempt at the retry limit failed: its event was incomplete, or
      its insert failed. */
  lemma DeadMeansMalformedOrExhausted(nilIsError: bool, stamp: nat -> nat, now: int, steps: seq<Step>, m: nat)
    requires m in Run(Next, Start(nilIsError, stamp, now), steps).queue.dead
    ensures var w := Run(Next, Start(nilIsError, stamp, now), steps);
            && m in w.bodies && m !in w.queue.acked
            && (w.bodies[m].Assigned? ==> exists x :: Exhausted(w, x, m))
  {
    var w := Run(Next, Start(nilIsError, stamp, now), steps);
    RunKeeps(nilIsError, stamp, now, steps);
    var x :| SettledAs(w, m, x, false);
    assert w.attempts[x].body == w.bodies[m] && StageAgrees(nilIsError, w.attempts[x]);
    assert w.bodies[m].Assigned? ==> Exhausted(w, x, m);
    assert m in w.queue.ledgers;
  }

  predicate Exhausted(w: World, x: nat, m: nat)
  {
    && x in w.attempts && w.attempts[x].message == m && w.attempts[x].count >= Broker.MAX_RETRIES
    && w.attempts[x].body.Assigned?
    && (!WellFormed(w.attempts[x].body.event) || w.attempts[x].insert.InsertFailed?)
  }

  /** Once an event's key is taken, any other attempt that claims it within the day is acknowledged without an insert,
      whatever became of the first one's insert: from every reachable state in which the message is ready. So a
      redelivery after a failed insert loses the notification. */
  lemma RetryWithinTheDayIsAckedWithoutARow(stamp: nat -> nat, now: int, steps: seq<Step>, m: nat, x: nat)
    requires var w := Run(Next, Start(false, stamp, now), steps);
             && m in w.queue.ready && m in w.bodies && Claimable(w.bodies[m]) && x !in w.attempts
             && HeldAt(w, w.bodies[m].event.id, w.now)
    ensures var w := Run(Next, Start(false, stamp, now), steps);
            var w' := Run(Next, w, [Deliver(x, m)] + [Advance(x, Answered)] + [Advance(x, Answered)]);
            m in w'.queue.acked && w'.rows == w.rows
  {
    var w := Run(Next, Start(false, stamp, now), steps);
    RunKeeps(false, stamp, now, steps);
    RunOne(Next, w, Deliver(x, m));
    RunSnoc(Next, w, [Deliver(x, m)], Advance(x, Answered));
    RunSnoc(Next, w, [Deliver(x, m)] + [Advance(x, Answered)], Advance(x, Answered));
    HeldMeansOccupied(w, w.bodies[m].event.id);
    DeliverEffect(w, x, m);
    RefusedThenAcked(Next(w, Deliver(x, m)), x, m);
  }

  lemma RefusedThenAcked(w: World, x: nat, m: nat)
    requires x in w.attempts && w.attempts[x].stage.Claiming? && !w.nilIsError && Occupied(w, w.attempts[x])
    requires x in w.queue.unacked && w.queue.unacked[x] == m && m in w.queue.ledgers
    ensures var w' := Next(Next(w, Advance(x, Answered)), Advance(x, Answered));
            m in w'.queue.acked && w'.rows == w.rows
  {
  }

  lemma DeliverEffect(w: World, x: nat, m: nat)
    requires DeliveriesAgree(w) && m in w.queue.ready && m in w.bodies && Claimable(w.bodies[m]) && x !in w.attempts
    ensures var w' := Next(w, Deliver(x, m));
            && DeliveriesAgree(w') && x in w'.attempts
            && w' == w.(attempts := w.attempts[x := w'.attempts[x]], queue := w'.queue)
            && w'.attempts[x].stage.Claiming? && w'.attempts[x].body == w.bodies[m] && w'.attempts[x].message == m
            && x in w'.queue.unacked && w'.queue.unacked[x] == m && m in w'.queue.ledgers
  {
    DeliverKeepsDeliveries(w, x, m);
  }

  lemma HeldMeansOccupied(w: World, id: string)
    requires TakesApart(w, id) && HeldAt(w, id, w.now)
    ensures Lookup(w.claims, Key(id)).Occupied(w.now)
  {
    var y :| InForce(w, y, id, w.now);
    var slot := Lookup(w.claims, Key(id));
    assert slot.Stored? && (y == slot.value || Before(w, y, slot.value));
  }

  // ---- the queue is the broker's ----

  ghost predicate CountsAgree(w: World)
  {
    forall x | x in w.attempts :: x in w.queue.deliveries && w.queue.deliveries[x].count == w.attempts[x].count
  }

  /** What the step is to the broker. */
  function QueueSteps(w: World, s: Step): seq<Broker.Step>
  {
    match s
    case Publish(m, _) => if m in w.bodies then [] else [Broker.Publish(m)]
    case Deliver(x, m) => if m in w.bodies then [Broker.Deliver(x, m)] else []
    case Advance(x, fate) =>
      if x in w.attempts && w.attempts[x].stage.Settling? && fate.Applied()
        then [Broker.Settle(x, w.attempts[x].stage.outcome)] else []
    case Drop(x) => [Broker.Drop(x)]
    case Tick(_) => []
  }

  lemma QueueFollows(w: World, s: Step)
    requires CountsAgree(w)
    ensures Next(w, s).queue == Run(Broker.Next, w.queue, QueueSteps(w, s))
  {
    if QueueSteps(w, s) != [] { RunOne(Broker.Next, w.queue, QueueSteps(w, s)[0]); }
  }

  lemma NextKeepsCounts(w: World, s: Step)
    requires CountsAgree(w) && w.queue.deliveries.Keys == w.attempts.Keys
    ensures CountsAgree(Next(w, s))
  {
  }

  /** The consumers' queue goes through a run of the broker. */
  lemma {:induction false} QueueIsARun(nilIsError: bool, stamp: nat -> nat, now: int, steps: seq<Step>)
    returns (sent: seq<Broker.Step>)
    ensures var w := Run(Next, Start(nilIsError, stamp, now), steps);
            CountsAgree(w) && w.queue == Run(Broker.Next, Broker.NewQueue(stamp), sent)
  {
    if steps == [] {
      sent := [];
    } else {
      var before, s := steps[..|steps| - 1], steps[|steps| - 1];
      var w := Run(Next, Start(nilIsError, stamp, now), before);
      var earlier := QueueIsARun(nilIsError, stamp, now, before);
      RunKeeps(nilIsError, stamp, now, before);
      QueueFollows(w, s);
      NextKeepsCounts(w, s);
      RunConcat(Broker.Next, Broker.NewQueue(stamp), earlier, QueueSteps(w, s));
      sent := earlier + QueueSteps(w, s);
    }
  }

  /** So the retry limit holds of every message of every run of the consumers, if the broker counts every redelivery. */
  lemma ConsumersRetriesAreLimited(nilIsError: bool, stamp: nat -> nat, now: int, steps: seq<Step>, m: nat)
    requires Broker.CountsEveryDelivery(stamp)
    ensures var q := Run(Next, Start(nilIsError, stamp, now), steps).queue;
            m in q.ledgers ==>
              var l := q.ledgers[m];
              l.requeues <= 3 && l.deliveries <= 4 + l.drops && l.slept <= 7
  {
    var sent := QueueIsARun(nilIsError, stamp, now, steps);
    Broker.RetriesAreLimited(stamp, sent, m);
  }

  // ---- how many notifications one event gets ----

  predicate ClaimedWithin(w: World, x: nat, id: string, from: int, until: int)
  {
    On(w, x, id) && !w.attempts[x].claim.Unclaimed? && from <= w.attempts[x].claimedAt < until
  }

  /** The rows of one event inserted on claims made in the given time. */
  function RowsIn(w: World, id: string, from: int, until: int): set<nat>
  {
    set x | x in w.rows && ClaimedWithin(w, x, id, from, until)
  }

  /** The claims of one event in the given time to which the key store answered with an error. */
  function ErrorsIn(w: World, id: string, from: int, until: int): set<nat>
  {
    set x | x in w.attempts && ClaimedWithin(w, x, id, from, until) && w.attempts[x].claim.Errored?
  }

  function WinsIn(w: World, id: string, from: int, until: int): set<nat>
  {
    set x | x in w.attempts && ClaimedWithin(w, x, id, from, until) && w.attempts[x].claim.Won?
  }

  lemma WinsSplit(w: World, id: string, from: int, mid: int, until: int)
    requires from <= mid <= until
    ensures |WinsIn(w, id, from, until)| <= |WinsIn(w, id, from, mid)| + |WinsIn(w, id, mid, until)|
  {
    assert WinsIn(w, id, from, until) == WinsIn(w, id, from, mid) + WinsIn(w, id, mid, until);
  }

  /** Claims a day apart: at most one a day. */
  lemma {:induction false} WinsAreADayApart(w: World, id: string, from: int, days: nat)
    requires TakesApart(w, id)
    ensures |WinsIn(w, id, from, from + Days(days))| <= days
  {
    if days == 0 {
      assert WinsIn(w, id, from, from) == {};
    } else {
      var mid := from + Days(days - 1);
      WinsAreADayApart(w, id, from, days - 1);
      OneWinADay(w, id, mid);
      WinsSplit(w, id, from, mid, mid + DAY);
    }
  }

  lemma OneWinADay(w: World, id: string, from: int)
    requires TakesApart(w, id)
    ensures |WinsIn(w, id, from, from + DAY)| <= 1
  {
    var wins := WinsIn(w, id, from, from + DAY);
    if wins != {} {
      var x :| x in wins;
      forall y | y in wins
        ensures y == x
      {
        assert Taker(w, x, id) && Taker(w, y, id);
      }
      assert wins == {x};
    }
  }

  lemma RowsComeFromWinsOrErrors(w: World, id: string, from: int, until: int)
    requires AttemptsAgree(w) && !w.nilIsError
    ensures |RowsIn(w, id, from, until)| <= |WinsIn(w, id, from, until)| + |ErrorsIn(w, id, from, until)|
  {
    forall x | x in RowsIn(w, id, from, until)
      ensures x in WinsIn(w, id, from, until) + ErrorsIn(w, id, from, until)
    {
      assert StageAgrees(false, w.attempts[x]) && RowAgrees(w, x);
    }
    SubsetIsSmaller(RowsIn(w, id, from, until), WinsIn(w, id, from, until) + ErrorsIn(w, id, from, until));
  }

  /** With an occupied key reported as no error: the claims of any number of days lead to at most one notification of
      the event a day, plus one for each claim that met an error; for any duplicates and any number of consumers. */
  lemma RowsPerDay(stamp: nat -> nat, now: int, steps: seq<Step>, id: string, from: int, days: nat)
    ensures var w := Run(Next, Start(false, stamp, now), steps);
            |RowsIn(w, id, from, from + Days(days))| <= days + |ErrorsIn(w, id, from, from + Days(days))|
  {
    RunKeeps(false, stamp, now, steps);
    RowsPerDayIn(Run(Next, Start(false, stamp, now), steps), id, from, days);
  }

  lemma RowsPerDayIn(w: World, id: string, from: int, days: nat)
    requires ClaimsAgree(w) && AttemptsAgree(w) && !w.nilIsError
    ensures |RowsIn(w, id, from, from + Days(days))| <= days + |ErrorsIn(w, id, from, from + Days(days))|
  {
    RowsComeFromWinsOrErrors(w, id, from, from + Days(days));
    WinsAreADayApart(w, id, from, days);
  }

  /** Claims made within one day never lead to two notifications unless the key store errs. */
  ghost predicate OneRowADay(nilIsError: bool, stamp: nat -> nat)
  {
    forall now: int, steps, id, from: int :: RowsFit(Run(Next, Start(nilIsError, stamp, now), steps), id, from)
  }

  predicate RowsFit(w: World, id: string, from: int)
  {
    |RowsIn(w, id, from, from + DAY)| <= 1 + |ErrorsIn(w, id, from, from + DAY)|
  }

  /** The promise holds if and only if the client does not report an occupied key as an error. */
  lemma OneRowADayIffOccupiedIsNotAnError(nilIsError: bool, stamp: nat -> nat)
    ensures OneRowADay(nilIsError, stamp) <==> !nilIsError
  {
    if nilIsError {
      var steps, e := RedeliveredInOneDay(stamp, 2);
      var w := Run(Next, Start(true, stamp, 0), steps);
      assert ErrorsIn(w, e.id, 0, DAY) == {};
      SubsetIsSmaller(Below(2), RowsIn(w, e.id, 0, DAY));
      assert !RowsFit(w, e.id, 0);
    } else {
      forall now: int, steps, id, from: int
        ensures RowsFit(Run(Next, Start(false, stamp, now), steps), id, from)
      {
        RowsPerDay(stamp, now, steps, id, from, 1);
        assert Days(1) == DAY;
      }
    }
  }

  // ---- by the time of storing ----

  /** Nothing is inserted before it is claimed, or later than now. */
  predicate TimesAgree(now: int, a: Attempt)
  {
    a.claimedAt <= now && (!a.insert.NotTried? ==> a.claimedAt <= a.insertedAt <= now)
  }

  ghost predicate AllTimesAgree(w: World) { forall x | x in w.attempts :: TimesAgree(w.now, w.attempts[x]) }

  lemma AttemptKeepsTimes(a: Attempt, occupied: bool, nilIsError: bool, now: int, fate: Fate)
    requires StageAgrees(nilIsError, a) && TimesAgree(now, a)
    ensures TimesAgree(now, AttemptAfter(a, occupied, nilIsError, now, fate))
  {
  }

  lemma NextKeepsTimes(w: World, s: Step)
    requires AttemptsAgree(w) && AllTimesAgree(w) && w.queue.deliveries.Keys == w.attempts.Keys
    ensures AllTimesAgree(Next(w, s))
  {
    if s.Advance? && s.attempt in w.attempts {
      var a := w.attempts[s.attempt];
      assert StageAgrees(w.nilIsError, a);
      AttemptKeepsTimes(a, Occupied(w, a), w.nilIsError, w.now, s.fate);
    }
  }

  lemma {:induction false} RunKeepsTimes(nilIsError: bool, stamp: nat -> nat, now: int, steps: seq<Step>)
    ensures AllTimesAgree(Run(Next, Start(nilIsError, stamp, now), steps))
  {
    if steps != [] {
      var before := steps[..|steps| - 1];
      RunKeepsTimes(nilIsError, stamp, now, before);
      RunKeeps(nilIsError, stamp, now, before);
      NextKeepsTimes(Run(Next, Start(nilIsError, stamp, now), before), steps[|steps| - 1]);
    }
  }

  /** The rows of one event stored in the given time. */
  function StoredIn(w: World, id: string, from: int, until: int): set<nat>
  {
    set x | x in w.rows && On(w, x, id) && from <= w.attempts[x].insertedAt < until
  }

  /** Every row of the event was stored at most so long after its claim. */
  ghost predicate StoredWithin(w: World, id: string, latency: int)
  {
    forall x | x in w.rows && On(w, x, id) :: w.attempts[x].insertedAt <= w.attempts[x].claimedAt + latency
  }

  /** Enough days to hold the given time. */
  function DaysIn(length: nat): nat { (length + 86399) / 86400 }

  lemma StoredWereClaimed(w: World, id: string, from: int, until: int, latency: nat)
    requires AttemptsAgree(w) && AllTimesAgree(w) && StoredWithin(w, id, latency)
    ensures |StoredIn(w, id, from, until)| <= |RowsIn(w, id, from - latency, until)|
  {
    forall x | x in StoredIn(w, id, from, until)
      ensures x in RowsIn(w, id, from - latency, until)
    {
      assert StageAgrees(w.nilIsError, w.attempts[x]) && RowAgrees(w, x) && TimesAgree(w.now, w.attempts[x]);
    }
    SubsetIsSmaller(StoredIn(w, id, from, until), RowsIn(w, id, from - latency, until));
  }

  lemma WinsInAnyTime(w: World, id: string, from: int, length: nat)
    requires TakesApart(w, id)
    ensures |WinsIn(w, id, from, from + length)| <= DaysIn(length)
  {
    var days := DaysIn(length);
    assert length <= Days(days);
    SubsetIsSmaller(WinsIn(w, id, from, from + length), WinsIn(w, id, from, from + Days(days)));
    WinsAreADayApart(w, id, from, days);
  }

  /** With an occupied key reported as no error: in any time at most one notification of the event is stored for every
      day of that time lengthened by the latency from claim to insert, plus one for each claim that met an error. */
  lemma StoredRowsAreBounded(stamp: nat -> nat, now: int, steps: seq<Step>, id: string, from: int, length: nat,
                             latency: nat)
    requires StoredWithin(Run(Next, Start(false, stamp, now), steps), id, latency)
    ensures var w := Run(Next, Start(false, stamp, now), steps);
            |StoredIn(w, id, from, from + length)| <= DaysIn(length + latency)
              + |ErrorsIn(w, id, from - latency, from + length)|
  {
    RunKeeps(false, stamp, now, steps);
    RunKeepsTimes(false, stamp, now, steps);
    StoredRowsAreBoundedIn(Run(Next, Start(false, stamp, now), steps), id, from, length, latency);
  }

  lemma RowsInAnyTime(w: World, id: string, from: int, until: int)
    requires TakesApart(w, id) && AttemptsAgree(w) && !w.nilIsError && from <= until
    ensures |RowsIn(w, id, from, until)| <= DaysIn(until - from) + |ErrorsIn(w, id, from, until)|
  {
    RowsComeFromWinsOrErrors(w, id, from, until);
    WinsInAnyTime(w, id, from, until - from);
  }

  lemma StoredRowsAreBoundedIn(w: World, id: string, from: int, length: nat, latency: nat)
    requires ClaimsAgree(w) && AttemptsAgree(w) && AllTimesAgree(w) && !w.nilIsError && StoredWithin(w, id, latency)
    ensures |StoredIn(w, id, from, from + length)| <= DaysIn(length + latency)
            + |ErrorsIn(w, id, from - latency, from + length)|
  {
    StoredWereClaimed(w, id, from, from + length, latency);
    assert TakesApart(w, id);
    RowsInAnyTime(w, id, from - latency, from + length);
  }

  /** If every insert follows its claim within the latency, no day stores two notifications of an event unless the key
      store errs. */
  ghost predicate OneStoredADay(stamp: nat -> nat, latency: nat)
  {
    forall now: int, steps, id, from: int | StoredWithin(Run(Next, Start(false, stamp, now), steps), id, latency) ::
      StoredFit(Run(Next, Start(false, stamp, now), steps), id, from, latency)
  }

  predicate StoredFit(w: World, id: string, from: int, latency: nat)
  {
    |StoredIn(w, id, from, from + DAY)| <= 1 + |ErrorsIn(w, id, from - latency, from + DAY)|
  }

  /** That holds if and only if inserts do not lag behind their claims at all. */
  lemma OneStoredADayIffInsertsAreImmediate(stamp: nat -> nat, latency: nat)
    ensures OneStoredADay(stamp, latency) <==> latency == 0
  {
    if latency == 0 {
      forall now: int, steps, id, from: int | StoredWithin(Run(Next, Start(false, stamp, now), steps), id, latency)
        ensures StoredFit(Run(Next, Start(false, stamp, now), steps), id, from, latency)
      {
        StoredRowsAreBounded(stamp, now, steps, id, from, DAY, 0);
      }
    } else {
      var steps := TwoRowsInADay(stamp, 1);
      var w := Run(Next, Start(false, stamp, 0), steps);
      assert ErrorsIn(w, TWICE.id, 1 - latency, 1 + DAY) == {};
      assert StoredIn(w, TWICE.id, 1, 1 + DAY) == {0, 1};
      assert !StoredFit(w, TWICE.id, 1, latency);
    }
  }

  const TWICE := Event("e", "u", "c", "t", "")

  ghost predicate Reached(s: World, steps: seq<Step>, w: World) { w == Run(Next, s, steps) }

  lemma OneMore(s: World, steps: seq<Step>, w: World, step: Step) returns (steps': seq<Step>, w': World)
    requires Reached(s, steps, w)
    ensures Reached(s, steps', w') && w' == Next(w, step)
  {
    RunSnoc(Next, s, steps, step);
    steps', w' := steps + [step], Next(w, step);
  }

  predicate Begins(a: Attempt) { a.body == Assigned(TWICE) && a.stage.Claiming? }

  /** Two messages of one event, each in the hands of a consumer. */
  lemma TwoDelivered(stamp: nat -> nat) returns (steps: seq<Step>, w: World)
    ensures Reached(Start(false, stamp, 0), steps, w) && w.now == 0 && !w.nilIsError && w.claims == map[] &&
            w.rows == map[]
    ensures w.attempts.Keys == {0, 1} && Begins(w.attempts[0]) && Begins(w.attempts[1])
  {
    steps, w := [], Start(false, stamp, 0);
    steps, w := OneMore(Start(false, stamp, 0), steps, w, Publish(0, Assigned(TWICE)));
    steps, w := OneMore(Start(false, stamp, 0), steps, w, Publish(1, Assigned(TWICE)));
    steps, w := OneMore(Start(false, stamp, 0), steps, w, Deliver(0, 0));
    steps, w := OneMore(Start(false, stamp, 0), steps, w, Deliver(1, 1));
  }

  predicate StoredBy(w: World, x: nat, claimedAt: int, insertedAt: int)
  {
    && x in w.rows && On(w, x, TWICE.id) && w.attempts[x].claim.Won?
    && w.attempts[x].claimedAt == claimedAt && w.attempts[x].insertedAt == insertedAt
  }

  /** The attempt claims a free key, and inserts some time later. */
  lemma ClaimedAndStored(stamp: nat -> nat, steps: seq<Step>, w: World, x: nat, lag: nat)
    returns (steps': seq<Step>, w': World)
    requires Reached(Start(false, stamp, 0), steps, w) && x in w.attempts && Begins(w.attempts[x]) &&
             !Occupied(w, w.attempts[x])
    ensures Reached(Start(false, stamp, 0), steps', w') && w'.now == w.now + lag && w'.nilIsError == w.nilIsError
    ensures StoredBy(w', x, w.now, w.now + lag) && w'.attempts == w.attempts[x := w'.attempts[x]]
    ensures w'.rows == w.rows[x := w'.rows[x]]
    ensures w'.claims == w.claims[Key(TWICE.id) := Stored(x, Until(w.now + DAY))]
  {
    steps', w' := OneMore(Start(false, stamp, 0), steps, w, Advance(x, Answered));
    steps', w' := OneMore(Start(false, stamp, 0), steps', w', Tick(lag));
    steps', w' := OneMore(Start(false, stamp, 0), steps', w', Advance(x, Answered));
  }

  /** A run without errors that stores two notifications of one event less than a day apart: claimed at 0 and at one
      day, the first stored with the given lag. With a lag of a day both are stored at the same instant. */
  lemma TwoRowsInADay(stamp: nat -> nat, lag: nat) returns (steps: seq<Step>)
    requires 1 <= lag <= DAY
    ensures var w := Run(Next, Start(false, stamp, 0), steps);
            && StoredBy(w, 0, 0, lag) && StoredBy(w, 1, DAY, DAY) && w.rows.Keys == {0, 1} && w.attempts.Keys == {0, 1}
  {
    var w;
    steps, w := TwoDelivered(stamp);
    steps, w := ClaimedAndStored(stamp, steps, w, 0, lag);
    steps, w := OneMore(Start(false, stamp, 0), steps, w, Tick(DAY - lag));
    steps, w := ClaimedAndStored(stamp, steps, w, 1, 0);
  }

  // ---- an occupied key that counts as an error ----

  ghost predicate InsertedBefore(w: World, id: string, n: nat)
  {
    forall x: nat | x < n :: x in w.rows && ClaimedWithin(w, x, id, 0, DAY)
  }

  lemma RowsStay(w: World, w': World, id: string, n: nat)
    requires InsertedBefore(w, id, n) && w.rows.Keys <= w'.rows.Keys
    requires forall x | x in w.attempts && x != n :: x in w'.attempts && w'.attempts[x] == w.attempts[x]
    ensures InsertedBefore(w', id, n)
  {
    forall x: nat | x < n
      ensures x in w'.rows && ClaimedWithin(w', x, id, 0, DAY)
    {
      assert ClaimedWithin(w, x, id, 0, DAY);
    }
  }

  /** On the first day, all attempts on message 0 before the n-th have inserted a row. */
  ghost predicate Duplicated(w: World, e: Event, n: nat)
  {
    && w.nilIsError && w.now == 0 && DeliveriesAgree(w) && w.bodies == map[0 := Assigned(e)] && WellFormed(e)
    && (forall x | x in w.attempts :: x <= n && !w.attempts[x].claim.Errored?)
    && InsertedBefore(w, e.id, n)
  }

  ghost predicate Waiting(w: World, e: Event, n: nat)
  {
    Duplicated(w, e, n) && 0 in w.queue.ready && n !in w.attempts
  }

  ghost predicate InProcess(w: World, e: Event, n: nat)
  {
    && Duplicated(w, e, n) && n in w.attempts && w.attempts[n].body == Assigned(e)
    && n in w.queue.unacked && w.queue.unacked[n] == 0 && 0 in w.queue.ledgers
  }

  lemma DeliverAgain(w: World, e: Event, n: nat)
    requires Waiting(w, e, n)
    ensures InProcess(Next(w, Deliver(n, 0)), e, n) && Next(w, Deliver(n, 0)).attempts[n].stage.Claiming?
  {
    DeliverEffect(w, n, 0);
    RowsStay(w, Next(w, Deliver(n, 0)), e.id, n);
  }

  lemma ClaimAgain(w: World, e: Event, n: nat)
    requires InProcess(w, e, n) && w.attempts[n].stage.Claiming?
    ensures var w' := Next(w, Advance(n, Answered));
            InProcess(w', e, n) && w'.attempts[n].stage.Inserting? && ClaimedWithin(w', n, e.id, 0, DAY)
  {
    AdvanceKeepsDeliveries(w, n, Answered);
    RowsStay(w, Advanced(w, n, Answered), e.id, n);
  }

  lemma InsertAgain(w: World, e: Event, n: nat)
    requires InProcess(w, e, n) && w.attempts[n].stage.Inserting? && ClaimedWithin(w, n, e.id, 0, DAY)
    ensures var w' := Next(w, Advance(n, Answered));
            InProcess(w', e, n) && n in w'.rows && ClaimedWithin(w', n, e.id, 0, DAY)
  {
    AdvanceKeepsDeliveries(w, n, Answered);
    RowsStay(w, Advanced(w, n, Answered), e.id, n);
  }

  lemma DropAgain(w: World, e: Event, n: nat)
    requires InProcess(w, e, n) && n in w.rows && ClaimedWithin(w, n, e.id, 0, DAY)
    ensures Waiting(Next(w, Drop(n)), e, n + 1)
  {
    DropKeepsDeliveries(w, n);
  }

  lemma FirstPublish(stamp: nat -> nat, e: Event)
    requires WellFormed(e)
    ensures Waiting(Next(Start(true, stamp, 0), Publish(0, Assigned(e))), e, 0)
  {
  }

  lemma ProcessedAgain(s: World, steps: seq<Step>, w: World, e: Event, n: nat) returns (steps': seq<Step>, w': World)
    requires Reached(s, steps, w) && Waiting(w, e, n)
    ensures Reached(s, steps', w') && InProcess(w', e, n) && n in w'.rows && ClaimedWithin(w', n, e.id, 0, DAY)
  {
    DeliverAgain(w, e, n);
    steps', w' := OneMore(s, steps, w, Deliver(n, 0));
    ClaimAgain(w', e, n);
    steps', w' := OneMore(s, steps', w', Advance(n, Answered));
    InsertAgain(w', e, n);
    steps', w' := OneMore(s, steps', w', Advance(n, Answered));
  }

  lemma OneMoreRow(s: World, steps: seq<Step>, w: World, e: Event, n: nat) returns (steps': seq<Step>, w': World)
    requires Reached(s, steps, w) && Waiting(w, e, n)
    ensures Reached(s, steps', w') && Waiting(w', e, n + 1)
  {
    steps', w' := ProcessedAgain(s, steps, w, e, n);
    DropAgain(w', e, n);
    steps', w' := OneMore(s, steps', w', Drop(n));
  }

  lemma PublishedOnce(stamp: nat -> nat) returns (steps: seq<Step>, w: World, e: Event)
    ensures Reached(Start(true, stamp, 0), steps, w) && Waiting(w, e, 0)
  {
    e := Event("e", "u", "c", "t", "");
    FirstPublish(stamp, e);
    steps, w := OneMore(Start(true, stamp, 0), [], Start(true, stamp, 0), Publish(0, Assigned(e)));
  }

  lemma {:induction false} ProcessedManyTimes(s: World, steps: seq<Step>, w: World, e: Event, n: nat)
    returns (steps': seq<Step>, w': World)
    requires Reached(s, steps, w) && Waiting(w, e, 0)
    ensures Reached(s, steps', w') && Waiting(w', e, n)
  {
    if n == 0 {
      steps', w' := steps, w;
    } else {
      steps', w' := ProcessedManyTimes(s, steps, w, e, n - 1);
      steps', w' := OneMoreRow(s, steps', w', e, n - 1);
    }
  }

  /** For every n, one message redelivered on one day gives n notifications if an occupied key counts as an error. */
  lemma RedeliveredInOneDay(stamp: nat -> nat, n: nat) returns (steps: seq<Step>, e: Event)
    ensures Waiting(Run(Next, Start(true, stamp, 0), steps), e, n)
  {
    var w;
    steps, w, e := PublishedOnce(stamp);
    steps, w := ProcessedManyTimes(Start(true, stamp, 0), steps, w, e, n);
  }
}
