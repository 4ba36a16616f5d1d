/** The scheduler's cron lock for one job: any number of pods read the clock, and later claim a key that lives
    until the next fire time as computed from that reading. Nobody ever deletes the key. */
module CronLock {
  import opened Prelude
  import opened KeyStore
  import opened Runs

  /** fires(t) is the least fire time strictly after t. */
  ghost predicate IsSchedule(fires: int -> int)
  {
    && (forall t :: t < fires(t))
    && (forall t, u | t <= u < fires(t) :: fires(u) == fires(t))
  }

  /** How a claim ended; an unanswered one may still have taken the lock. */
  datatype Verdict = Pending | Ran | Held | Unanswered(took: bool)

  /** One firing of the job on one pod: when it read the clock and when its SETNX ran. */
  datatype Attempt = Attempt(readAt: int, setAt: int, verdict: Verdict)

  datatype Cron = Cron(fires: int -> int, now: int, slot: Slot<nat>, attempts: map<nat, Attempt>)

  datatype Step = Fire(attempt: nat) | Claim(attempt: nat, fate: Fate) | Tick(amount: nat)

  function Start(fires: int -> int, now: int): Cron
  {
    Cron(fires, now, Empty, map[])
  }

  predicate Took(a: Attempt) { a.verdict.Ran? || (a.verdict.Unanswered? && a.verdict.took) }

  function Deadline(fires: int -> int, a: Attempt): int { a.setAt + (fires(a.readAt) - a.readAt) }

  function VerdictOf(c: Cron, fate: Fate): Verdict
  {
    if fate.Lost? then Unanswered(fate.applied && !c.slot.Occupied(c.now))
    else if c.slot.Occupied(c.now) then Held
    else Ran
  }

  function Claimed(c: Cron, attempt: nat, fate: Fate): Cron
  {
    if attempt !in c.attempts || !c.attempts[attempt].verdict.Pending? then c
    else
      var a := c.attempts[attempt];
      c.(slot := if fate.Applied() then SetNX(c.slot, attempt, c.fires(a.readAt) - a.readAt, c.now) else c.slot,
         attempts := c.attempts[attempt := a.(setAt := c.now, verdict := VerdictOf(c, fate))])
  }

  function Next(c: Cron, s: Step): Cron
  {
    match s
    case Fire(attempt) =>
      if attempt in c.attempts then c else c.(attempts := c.attempts[attempt := Attempt(c.now, c.now, Pending)])
    case Claim(attempt, fate) => Claimed(c, attempt, fate)
    case Tick(amount) => c.(now := c.now + amount)
  }

  // ---- what every reachable state keeps ----

  ghost predicate Ordered(c: Cron)
  {
    forall x | x in c.attempts :: c.attempts[x].readAt <= c.attempts[x].setAt <= c.now
  }

  predicate TookLock(c: Cron, x: nat) { x in c.attempts && Took(c.attempts[x]) }

  /** Take x came first, and its lock had run out when y took. */
  predicate Before(c: Cron, x: nat, y: nat)
    requires x in c.attempts && y in c.attempts
  {
    Deadline(c.fires, c.attempts[x]) <= c.attempts[y].setAt
  }

  /** Of two takes, one came only after the other's lock had run out; the last one owns the slot. */
  ghost predicate TakesApart(c: Cron)
  {
    && (forall x, y | TookLock(c, x) && TookLock(c, y) && x != y :: Before(c, x, y) || Before(c, y, x))
    && (c.slot.Stored? ==>
          && TookLock(c, c.slot.value) && c.slot.deadline == Until(Deadline(c.fires, c.attempts[c.slot.value]))
          && (forall x | TookLock(c, x) && x != c.slot.value :: Before(c, x, c.slot.value)))
    && (c.slot.Empty? ==> forall x :: !TookLock(c, x))
  }

  /** Attempt y took the lock and its lock was in force at the given time. */
  predicate InForce(c: Cron, y: nat, time: int)
  {
    TookLock(c, y) && c.attempts[y].setAt <= time < Deadline(c.fires, c.attempts[y])
  }

  ghost predicate HeldAt(c: Cron, time: int) { exists y :: InForce(c, y, time) }

  /** Whoever found the lock held, found it held by a take in force. */
  ghost predicate HeldBySomebody(c: Cron)
  {
    forall x | x in c.attempts && c.attempts[x].verdict.Held? :: HeldAt(c, c.attempts[x].setAt)
  }

  ghost predicate Good(c: Cron)
  {
    Ordered(c) && TakesApart(c) && HeldBySomebody(c)
  }

  /** Nothing a take left behind changes. */
  ghost predicate TakesSurvive(c: Cron, c': Cron)
  {
    c'.fires == c.fires && forall x | TookLock(c, x) :: TookLock(c', x) && c'.attempts[x] == c.attempts[x]
  }

  lemma QuietStepKeepsTakes(c: Cron, c': Cron)
    requires TakesApart(c) && TakesSurvive(c, c') && c'.slot == c.slot
    requires forall x | TookLock(c', x) :: TookLock(c, x)
    ensures TakesApart(c')
  {
  }

  lemma TakingKeepsTakes(c: Cron, c': Cron, attempt: nat)
    requires Ordered(c) && TakesApart(c) && TakesSurvive(c, c') && !c.slot.Occupied(c.now)
    requires TookLock(c', attempt) && !TookLock(c, attempt) && c'.attempts[attempt].setAt == c.now
    requires forall x | TookLock(c', x) && x != attempt :: TookLock(c, x)
    requires c'.slot == Stored(attempt, Until(Deadline(c.fires, c'.attempts[attempt])))
    ensures TakesApart(c')
  {
    forall x | TookLock(c', x) && x != attempt
      ensures Before(c', x, attempt)
    {
      assert TookLock(c, x) && c.slot.Stored?;
      assert x != c.slot.value ==> Before(c, x, c.slot.value);
    }
  }

  lemma ClaimKeepsTakes(c: Cron, attempt: nat, fate: Fate)
    requires Ordered(c) && TakesApart(c)
    ensures TakesApart(Claimed(c, attempt, fate)) && TakesSurvive(c, Claimed(c, attempt, fate))
  {
    var c' := Claimed(c, attempt, fate);
    if TookLock(c', attempt) && !TookLock(c, attempt) {
      TakingKeepsTakes(c, c', attempt);
    } else {
      QuietStepKeepsTakes(c, c');
    }
  }

  lemma KeepsHolders(c: Cron, c': Cron)
    requires HeldBySomebody(c) && TakesSurvive(c, c')
    requires forall x | x in c'.attempts && c'.attempts[x].verdict.Held? ::
               (x in c.attempts && c.attempts[x] == c'.attempts[x]) || HeldAt(c, c'.attempts[x].setAt)
    ensures HeldBySomebody(c')
  {
    forall x | x in c'.attempts && c'.attempts[x].verdict.Held?
      ensures HeldAt(c', c'.attempts[x].setAt)
    {
      var y :| InForce(c, y, c'.attempts[x].setAt);
      assert InForce(c', y, c'.attempts[x].setAt);
    }
  }

  lemma ClaimKeepsHolders(c: Cron, attempt: nat, fate: Fate)
    requires Good(c) && TakesSurvive(c, Claimed(c, attempt, fate))
    ensures HeldBySomebody(Claimed(c, attempt, fate))
  {
    if c.slot.Occupied(c.now) {
      assert InForce(c, c.slot.value, c.now);
    }
    KeepsHolders(c, Claimed(c, attempt, fate));
  }

  lemma NextKeeps(c: Cron, s: Step)
    requires Good(c)
    ensures Good(Next(c, s)) && TakesSurvive(c, Next(c, s))
  {
    if s.Claim? {
      ClaimKeepsTakes(c, s.attempt, s.fate);
      ClaimKeepsHolders(c, s.attempt, s.fate);
    } else {
      QuietStepKeepsTakes(c, Next(c, s));
      KeepsHolders(c, Next(c, s));
    }
  }

  lemma {:induction false} RunKeeps(c: Cron, steps: seq<Step>)
    requires Good(c)
    ensures Good(Run(Next, c, steps)) && Run(Next, c, steps).fires == c.fires
  {
    if steps != [] {
      RunKeeps(c, steps[..|steps| - 1]);
      NextKeeps(Run(Next, c, steps[..|steps| - 1]), steps[|steps| - 1]);
    }
  }

  // ---- at most once per interval ----

  /** The claim landed in the fire interval in which the clock was read. */
  predicate Timely(fires: int -> int, a: Attempt) { fires(a.setAt) == fires(a.readAt) }

  /** If every take landed in the interval of its clock reading, no interval sees two takes, let alone two runs. */
  lemma AtMostOncePerInterval(fires: int -> int, now: int, steps: seq<Step>, x: nat, y: nat)
    requires IsSchedule(fires)
    requires var c := Run(Next, Start(fires, now), steps);
             && TookLock(c, x) && TookLock(c, y) && x != y
             && (forall z | TookLock(c, z) :: Timely(fires, c.attempts[z]))
    ensures var c := Run(Next, Start(fires, now), steps);
            fires(c.attempts[x].setAt) != fires(c.attempts[y].setAt)
  {
    var c := Run(Next, Start(fires, now), steps);
    RunKeeps(Start(fires, now), steps);
    if Before(c, x, y) {
      LaterTakeIsInALaterInterval(fires, c.attempts[x], c.attempts[y]);
    } else {
      LaterTakeIsInALaterInterval(fires, c.attempts[y], c.attempts[x]);
    }
  }

  /** The lock set by the take outlives the fire interval it was set in. */
  predicate Covers(fires: int -> int, a: Attempt) { fires(a.setAt) <= Deadline(fires, a) }

  lemma TimelyTakesCover(fires: int -> int, a: Attempt)
    requires IsSchedule(fires) && a.readAt <= a.setAt && Timely(fires, a)
    ensures Covers(fires, a)
  {
  }

  lemma LaterTakeIsInALaterInterval(fires: int -> int, a: Attempt, b: Attempt)
    requires IsSchedule(fires) && a.readAt <= a.setAt && Timely(fires, a) && Deadline(fires, a) <= b.setAt
    ensures fires(a.setAt) < fires(b.setAt)
  {
    TimelyTakesCover(fires, a);
  }

  /** After x took the lock, y takes it and runs the job in x's fire interval. */
  ghost predicate SecondRun(c: Cron, x: nat, steps: seq<Step>, y: nat)
    requires x in c.attempts
  {
    var c' := Run(Next, c, steps);
    && y in c'.attempts && c'.attempts[y].verdict.Ran? && !TookLock(c, y)
    && c.fires(c'.attempts[y].setAt) == c.fires(c.attempts[x].setAt)
  }

  ghost predicate SecondRunPossible(c: Cron, x: nat)
    requires x in c.attempts
  {
    exists steps, y :: SecondRun(c, x, steps, y)
  }

  /** A take once made stays as it is, and new takes are not back-dated. */
  lemma {:induction false} TakesStay(c: Cron, steps: seq<Step>, x: nat)
    ensures var c' := Run(Next, c, steps);
            && c.now <= c'.now && c'.fires == c.fires
            && (TookLock(c, x) ==> TookLock(c', x) && c'.attempts[x] == c.attempts[x])
            && (TookLock(c', x) && !TookLock(c, x) ==> c.now <= c'.attempts[x].setAt)
  {
    if steps != [] { TakesStay(c, steps[..|steps| - 1], x); }
  }

  /** From any reachable state in which x holds the lock and x's fire interval is not over: the job can run again in
      that interval if and only if x's lock does not outlive it. */
  lemma SecondRunIffLockTooShort(fires: int -> int, now: int, steps: seq<Step>)
    requires IsSchedule(fires)
    requires var c := Run(Next, Start(fires, now), steps);
             c.slot.Stored? && c.slot.value in c.attempts && c.now < fires(c.attempts[c.slot.value].setAt)
    ensures var c := Run(Next, Start(fires, now), steps);
            SecondRunPossible(c, c.slot.value) <==> !Covers(fires, c.attempts[c.slot.value])
  {
    var c := Run(Next, Start(fires, now), steps);
    RunKeeps(Start(fires, now), steps);
    var x := c.slot.value;
    if SecondRunPossible(c, x) {
      var more, y :| SecondRun(c, x, more, y);
      SecondRunNeedsAShortLock(c, x, more, y);
    }
    if !Covers(fires, c.attempts[x]) { SecondRunHappens(c, x); }
  }

  lemma SecondRunNeedsAShortLock(c: Cron, x: nat, steps: seq<Step>, y: nat)
    requires IsSchedule(c.fires) && Good(c) && TookLock(c, x) && SecondRun(c, x, steps, y)
    ensures !Covers(c.fires, c.attempts[x])
  {
    var c' := Run(Next, c, steps);
    RunKeeps(c, steps);
    TakesStay(c, steps, x);
    TakesStay(c, steps, y);
    assert TookLock(c', y) && x != y;
    assert c'.attempts[x].setAt <= c'.attempts[y].setAt < Deadline(c.fires, c'.attempts[y]);
    assert Before(c', x, y);
  }

  lemma Unused(attempts: map<nat, Attempt>) returns (y: nat)
    ensures y !in attempts
  {
    y := Above(attempts.Keys);
  }

  lemma {:induction false} Above(s: set<nat>) returns (y: nat)
    ensures forall x | x in s :: x < y
  {
    if s == {} { y := 0; } else {
      var z :| z in s;
      var u := Above(s - {z});
      assert forall x | x in s :: x == z || x in s - {z};
      y := if u > z then u else z + 1;
    }
  }

  lemma SecondRunHappens(c: Cron, x: nat)
    requires IsSchedule(c.fires) && Good(c) && c.slot.Stored? && c.slot.value == x
    requires c.now < c.fires(c.attempts[x].setAt) && !Covers(c.fires, c.attempts[x])
    ensures SecondRunPossible(c, x)
  {
    var y := Unused(c.attempts);
    var wait := if c.now < Deadline(c.fires, c.attempts[x]) then Deadline(c.fires, c.attempts[x]) - c.now else 0;
    var steps := [Tick(wait)] + [Fire(y)] + [Claim(y, Answered)];
    RunOne(Next, c, Tick(wait));
    RunSnoc(Next, c, [Tick(wait)], Fire(y));
    RunSnoc(Next, c, [Tick(wait)] + [Fire(y)], Claim(y, Answered));
    assert SecondRun(c, x, steps, y);
  }

  // ---- no two intervals in a row are skipped ----

  /** The take was made no later after its clock reading than any two fire times are apart. */
  ghost predicate Prompt(fires: int -> int, a: Attempt)
  {
    forall t :: a.setAt - a.readAt <= fires(fires(t)) - fires(t)
  }

  /** Some attempt took the lock in the fire interval of the given time. */
  ghost predicate TakenIn(c: Cron, time: int)
  {
    exists x :: TookLock(c, x) && c.fires(c.attempts[x].setAt) == c.fires(time)
  }

  /** Some attempt took the lock in the fire interval just before that of the given time. */
  ghost predicate TakenJustBefore(c: Cron, time: int)
  {
    exists x :: TookLock(c, x) && c.fires(c.fires(c.attempts[x].setAt)) == c.fires(time)
  }

  /** If takes are prompt, an interval in which an attempt got an answer either saw a take or directly follows one
      that did. */
  lemma SkipsFollowTakes(fires: int -> int, now: int, steps: seq<Step>, x: nat)
    requires IsSchedule(fires)
    requires var c := Run(Next, Start(fires, now), steps);
             && x in c.attempts && (c.attempts[x].verdict.Ran? || c.attempts[x].verdict.Held?)
             && (forall y | TookLock(c, y) :: Prompt(fires, c.attempts[y]))
    ensures var c := Run(Next, Start(fires, now), steps);
            TakenIn(c, c.attempts[x].setAt) || TakenJustBefore(c, c.attempts[x].setAt)
  {
    var c := Run(Next, Start(fires, now), steps);
    RunKeeps(Start(fires, now), steps);
    if c.attempts[x].verdict.Ran? {
      assert TookLock(c, x);
    } else {
      var y :| InForce(c, y, c.attempts[x].setAt);
      HolderIsNear(fires, c.attempts[y], c.attempts[x].setAt);
    }
  }

  lemma HolderIsNear(fires: int -> int, a: Attempt, time: int)
    requires IsSchedule(fires) && Prompt(fires, a) && a.readAt <= a.setAt <= time < Deadline(fires, a)
    ensures fires(time) == fires(a.setAt) || fires(time) == fires(fires(a.setAt))
  {
    var end := fires(a.setAt);
    assert fires(a.readAt) <= end;
    assert a.setAt - a.readAt <= fires(fires(a.setAt)) - fires(a.setAt);
  }

  /** Of two consecutive intervals with answered attempts, at least one saw a take. */
  lemma NoTwoSkipsInARow(fires: int -> int, now: int, steps: seq<Step>, x: nat, y: nat)
    requires IsSchedule(fires)
    requires var c := Run(Next, Start(fires, now), steps);
             && x in c.attempts && y in c.attempts && c.attempts[x].verdict in {Ran, Held}
             && c.attempts[y].verdict in {Ran, Held}
             && fires(fires(c.attempts[x].setAt)) == fires(c.attempts[y].setAt)
             && (forall z | TookLock(c, z) :: Prompt(fires, c.attempts[z]))
    ensures var c := Run(Next, Start(fires, now), steps);
            TakenIn(c, c.attempts[x].setAt) || TakenIn(c, c.attempts[y].setAt)
  {
    var c := Run(Next, Start(fires, now), steps);
    SkipsFollowTakes(fires, now, steps, y);
    RunKeeps(Start(fires, now), steps);
    if TakenJustBefore(c, c.attempts[y].setAt) {
      var z :| TookLock(c, z) && fires(fires(c.attempts[z].setAt)) == fires(c.attempts[y].setAt);
      FiresAreInjective(fires, fires(c.attempts[z].setAt), fires(c.attempts[x].setAt), c.attempts[z].setAt,
        c.attempts[x].setAt);
    }
  }

  /** Some attempt ran the job in the fire interval of the given time. */
  ghost predicate RanIn(c: Cron, time: int)
  {
    exists x :: x in c.attempts && c.attempts[x].verdict.Ran? && c.fires(c.attempts[x].setAt) == c.fires(time)
  }

  /** Some attempt ran the job in the fire interval just before that of the given time. */
  ghost predicate RanJustBefore(c: Cron, time: int)
  {
    exists x :: x in c.attempts && c.attempts[x].verdict.Ran? && c.fires(c.fires(c.attempts[x].setAt)) == c.fires(time)
  }

  /** Every claim was answered or took nothing. */
  ghost predicate TakesAreAnswered(c: Cron)
  {
    forall x | TookLock(c, x) :: c.attempts[x].verdict.Ran?
  }

  /** If besides no claim took the lock without an answer: every interval in which an attempt got an answer ran the
      job or directly follows one that ran it. */
  lemma SkipsFollowRuns(fires: int -> int, now: int, steps: seq<Step>, x: nat)
    requires IsSchedule(fires)
    requires var c := Run(Next, Start(fires, now), steps);
             && x in c.attempts && c.attempts[x].verdict in {Ran, Held} && TakesAreAnswered(c)
             && (forall y | TookLock(c, y) :: Prompt(fires, c.attempts[y]))
    ensures var c := Run(Next, Start(fires, now), steps);
            RanIn(c, c.attempts[x].setAt) || RanJustBefore(c, c.attempts[x].setAt)
  {
    SkipsFollowTakes(fires, now, steps, x);
  }

  /** And of two consecutive intervals with answered attempts, at least one ran the job. */
  lemma OneOfTwoIntervalsRuns(fires: int -> int, now: int, steps: seq<Step>, x: nat, y: nat)
    requires IsSchedule(fires)
    requires var c := Run(Next, Start(fires, now), steps);
             && x in c.attempts && y in c.attempts && c.attempts[x].verdict in {Ran, Held}
             && c.attempts[y].verdict in {Ran, Held}
             && fires(fires(c.attempts[x].setAt)) == fires(c.attempts[y].setAt) && TakesAreAnswered(c)
             && (forall z | TookLock(c, z) :: Prompt(fires, c.attempts[z]))
    ensures var c := Run(Next, Start(fires, now), steps);
            RanIn(c, c.attempts[x].setAt) || RanIn(c, c.attempts[y].setAt)
  {
    NoTwoSkipsInARow(fires, now, steps, x, y);
  }

  /** Every take was prompt, and if claims may not take the lock silently, every take was answered. */
  ghost predicate Within(c: Cron, silent: bool)
  {
    && (forall y | TookLock(c, y) :: Prompt(c.fires, c.attempts[y]))
    && (silent || TakesAreAnswered(c))
  }

  predicate GotAnswer(c: Cron, x: nat) { x in c.attempts && c.attempts[x].verdict in {Ran, Held} }

  /** On every run with prompt takes: an interval in which an attempt got an answer ran the job or directly follows one
      that ran it. Claims may take the lock without an answer only if silent says so. */
  ghost predicate EveryIntervalRuns(fires: int -> int, silent: bool)
  {
    forall now: int, steps, x | var c := Run(Next, Start(fires, now), steps); GotAnswer(c, x) && Within(c, silent) ::
      RunsNear(Run(Next, Start(fires, now), steps), x)
  }

  ghost predicate RunsNear(c: Cron, x: nat)
    requires x in c.attempts
  {
    RanIn(c, c.attempts[x].setAt) || RanJustBefore(c, c.attempts[x].setAt)
  }

  /** On every run with prompt takes, of two consecutive intervals with answered attempts one ran the job. */
  ghost predicate NoTwoIdle(fires: int -> int, silent: bool)
  {
    forall now: int, steps, x, y |
      var c := Run(Next, Start(fires, now), steps); Consecutive(c, x, y) && Within(c, silent) ::
      OneRan(Run(Next, Start(fires, now), steps), x, y)
  }

  predicate Consecutive(c: Cron, x: nat, y: nat)
  {
    GotAnswer(c, x) && GotAnswer(c, y) && c.fires(c.fires(c.attempts[x].setAt)) == c.fires(c.attempts[y].setAt)
  }

  ghost predicate OneRan(c: Cron, x: nat, y: nat)
    requires x in c.attempts && y in c.attempts
  {
    RanIn(c, c.attempts[x].setAt) || RanIn(c, c.attempts[y].setAt)
  }

  ghost predicate Reached(fires: int -> int, now: int, steps: seq<Step>, c: Cron)
  {
    c == Run(Next, Start(fires, now), steps)
  }

  lemma OneMore(fires: int -> int, now: int, steps: seq<Step>, c: Cron, s: Step) returns (steps': seq<Step>, c': Cron)
    requires Reached(fires, now, steps, c)
    ensures Reached(fires, now, steps', c') && c' == Next(c, s)
  {
    RunSnoc(Next, Start(fires, now), steps, s);
    steps', c' := steps + [s], Next(c, s);
  }

  /** At one instant, a claim takes the free lock silently and another finds it held. */
  lemma TakenSilently(fires: int -> int, now: int, steps: seq<Step>, c: Cron, x: nat)
    returns (steps': seq<Step>, c': Cron)
    requires IsSchedule(fires) && c.fires == fires && Reached(fires, now, steps, c) && !c.slot.Occupied(c.now)
    requires x !in c.attempts && x + 1 !in c.attempts
    ensures Reached(fires, now, steps', c') && c'.fires == fires && c'.now == c.now
    ensures c'.slot == Stored(x, Until(fires(c.now)))
    ensures c'.attempts
            == c.attempts[x := Attempt(c.now, c.now, Unanswered(true))][x + 1 := Attempt(c.now, c.now, Held)]
  {
    steps', c' := OneMore(fires, now, steps, c, Fire(x));
    steps', c' := OneMore(fires, now, steps', c', Claim(x, Lost(true)));
    steps', c' := OneMore(fires, now, steps', c', Fire(x + 1));
    steps', c' := OneMore(fires, now, steps', c', Claim(x + 1, Answered));
  }

  /** A run with prompt takes on which an attempt finds the lock held and neither its interval nor the one before ran
      the job: another claim took the lock, and its reply was lost. */
  lemma SilentTakeIdlesAnInterval(fires: int -> int, now: int) returns (steps: seq<Step>)
    requires IsSchedule(fires)
    ensures var c := Run(Next, Start(fires, now), steps); GotAnswer(c, 1) && Within(c, true) && !RunsNear(c, 1)
  {
    var c;
    steps, c := TakenSilently(fires, now, [], Start(fires, now), 0);
  }

  /** The same in two consecutive intervals. */
  lemma SilentTakesIdleTwoIntervals(fires: int -> int, now: int) returns (steps: seq<Step>)
    requires IsSchedule(fires)
    ensures var c := Run(Next, Start(fires, now), steps); Consecutive(c, 1, 3) && Within(c, true) && !OneRan(c, 1, 3)
  {
    var c;
    steps, c := TakenSilently(fires, now, [], Start(fires, now), 0);
    steps, c := OneMore(fires, now, steps, c, Tick(fires(now) - now));
    steps, c := TakenSilently(fires, now, steps, c, 2);
  }

  /** Every interval with an answered attempt runs the job or directly follows one that did, on all prompt runs, if and
      only if a claim whose reply is lost cannot take the lock. */
  lemma EveryIntervalRunsIffNoSilentTakes(fires: int -> int, silent: bool)
    requires IsSchedule(fires)
    ensures EveryIntervalRuns(fires, silent) <==> !silent
  {
    if silent {
      var steps := SilentTakeIdlesAnInterval(fires, 0);
    } else {
      forall now: int, steps, x | var c := Run(Next, Start(fires, now), steps); GotAnswer(c, x) && Within(c, silent)
        ensures RunsNear(Run(Next, Start(fires, now), steps), x)
      {
        RunKeeps(Start(fires, now), steps);
        SkipsFollowRuns(fires, now, steps, x);
      }
    }
  }

  /** So does no two consecutive such intervals being idle. */
  lemma NoTwoIdleIffNoSilentTakes(fires: int -> int, silent: bool)
    requires IsSchedule(fires)
    ensures NoTwoIdle(fires, silent) <==> !silent
  {
    if silent {
      var steps := SilentTakesIdleTwoIntervals(fires, 0);
    } else {
      forall now: int, steps, x, y |
        var c := Run(Next, Start(fires, now), steps); Consecutive(c, x, y) && Within(c, silent)
        ensures OneRan(Run(Next, Start(fires, now), steps), x, y)
      {
        RunKeeps(Start(fires, now), steps);
        OneOfTwoIntervalsRuns(fires, now, steps, x, y);
      }
    }
  }

  /** Two fire times with the same successor are the same. */
  lemma FiresAreInjective(fires: int -> int, f: int, g: int, t: int, u: int)
    requires IsSchedule(fires) && f == fires(t) && g == fires(u) && fires(f) == fires(g)
    ensures f == g
  {
    NotLaterThan(fires, f, g, u);
    NotLaterThan(fires, g, f, t);
  }

  lemma NotLaterThan(fires: int -> int, f: int, g: int, u: int)
    requires IsSchedule(fires) && g == fires(u) && fires(f) == fires(g)
    ensures g <= f
  {
    assert u < fires(u) && g < fires(g);
    assert f <= u < fires(f) ==> fires(u) == fires(f);
    assert u <= f < fires(u) ==> fires(f) == fires(u);
  }

  // ---- many jobs in one store ----

  function Key(job: string): string { "cron:" + job }

  lemma KeysDiffer(a: string, b: string)
    ensures Key(a) == Key(b) <==> a == b
  {
    var p := |"cron:"|;
    assert Key(a)[p..] == a && Key(b)[p..] == b;
  }

  /** The key store of all jobs, each with its schedule and its firings so far. */
  datatype Store = Store(
    schedules: string -> int -> int, now: int, keys: map<string, Slot<nat>>, attempts: map<string, map<nat, Attempt>>)

  /** A step of a firing of the job. */
  datatype JobStep = JobStep(job: string, step: Step)

  function Opened(schedules: string -> int -> int, now: int): Store { Store(schedules, now, map[], map[]) }

  /** The store as one job's firings see it. */
  function Seen(s: Store, job: string): Cron
  {
    Cron(s.schedules(job), s.now, Lookup(s.keys, Key(job)), if job in s.attempts then s.attempts[job] else map[])
  }

  function Fired(s: Store, e: JobStep): Store
  {
    var c := Next(Seen(s, e.job), e.step);
    s.(now := c.now, keys := s.keys[Key(e.job) := c.slot], attempts := s.attempts[e.job := c.attempts])
  }

  /** What a job takes part in: the steps of its own firings, and the passing of time. */
  function OwnSteps(events: seq<JobStep>, job: string): seq<Step>
  {
    if events == [] then []
    else
      var last := events[|events| - 1];
      OwnSteps(events[..|events| - 1], job) + if last.job == job || last.step.Tick? then [last.step] else []
  }

  lemma FiredAsSeen(s: Store, e: JobStep, job: string)
    ensures Seen(Fired(s, e), job)
            == if e.job == job || e.step.Tick? then Next(Seen(s, job), e.step) else Seen(s, job)
  {
    KeysDiffer(e.job, job);
  }

  /** However the firings of many jobs mix, each job's run as they would if there were no other job. */
  lemma {:induction false} JobsAreIndependent(schedules: string -> int -> int, now: int, events: seq<JobStep>,
                                              job: string)
    ensures Seen(Run(Fired, Opened(schedules, now), events), job)
            == Run(Next, Start(schedules(job), now), OwnSteps(events, job))
  {
    if events != [] {
      var before, last := events[..|events| - 1], events[|events| - 1];
      JobsAreIndependent(schedules, now, before, job);
      FiredAsSeen(Run(Fired, Opened(schedules, now), before), last, job);
      if last.job == job || last.step.Tick? {
        RunSnoc(Next, Start(schedules(job), now), OwnSteps(before, job), last.step);
      } else {
        assert OwnSteps(events, job) == OwnSteps(before, job);
      }
    }
  }

  // ---- the scheduler ----

  datatype JobMeta = JobMeta(name: string, schedule: string)

  /** What happens around one remote call: the steps others take first, and the call's fate. */
  datatype Moment = Moment(others: seq<Step>, fate: Fate)

  ghost predicate LeavesAlone(steps: seq<Step>, attempt: nat)
  {
    forall k | 0 <= k < |steps| :: steps[k].Tick? || steps[k].attempt != attempt
  }

  lemma {:induction false} OthersLeaveAttempt(c: Cron, steps: seq<Step>, attempt: nat)
    requires LeavesAlone(steps, attempt)
    ensures var c' := Run(Next, c, steps);
            && c'.fires == c.fires && (attempt in c'.attempts <==> attempt in c.attempts)
            && (attempt in c.attempts ==> c'.attempts[attempt] == c.attempts[attempt])
  {
    if steps != [] {
      OthersLeaveAttempt(c, steps[..|steps| - 1], attempt);
      assert steps[|steps| - 1].Tick? || steps[|steps| - 1].attempt != attempt;
    }
  }

  class Scheduler {
    /** What the cron library makes of a schedule text. */
    const parse: string -> Option<int -> int>
    var jobs: seq<JobMeta>
    var now: int
    var keys: map<string, Slot<nat>>

    // bookkeeping: the firings of each job so far
    var attempts: map<string, map<nat, Attempt>>

    predicate Valid()
      reads this
    {
      forall job | job in jobs :: parse(job.schedule).Some?
    }

    function AttemptsOf(job: string): map<nat, Attempt>
      reads this
    {
      if job in attempts then attempts[job] else map[]
    }

    function View(job: string, fires: int -> int): Cron
      reads this
    {
      Cron(fires, now, Lookup(keys, Key(job)), AttemptsOf(job))
    }

    constructor (parse: string -> Option<int -> int>, now: int)
      ensures Valid() && jobs == [] && this.parse == parse
      ensures forall job, fires :: View(job, fires) == Start(fires, now)
    {
      this.parse, this.now, jobs, keys, attempts := parse, now, [], map[], map[];
    }

    /** A job enters the registry exactly when its schedule can be parsed. */
    method AddJob(name: string, schedule: string) returns (registered: bool)
      requires Valid()
      modifies `jobs
      ensures Valid()
      ensures registered <==> parse(schedule).Some?
      ensures jobs == if registered then old(jobs) + [JobMeta(name, schedule)] else old(jobs)
    {
      if parse(schedule).None? { return false; }
      jobs := jobs + [JobMeta(name, schedule)];
      return true;
    }

    /** Other pods' firings of the same job proceed for a while. */
    method Pause(job: string, fires: int -> int, attempt: nat, others: seq<Step>)
      requires LeavesAlone(others, attempt)
      modifies `now, `keys, `attempts
      ensures View(job, fires) == Run(Next, old(View(job, fires)), others)
      ensures attempt in AttemptsOf(job) <==> attempt in old(AttemptsOf(job))
      ensures attempt in AttemptsOf(job) ==> AttemptsOf(job)[attempt] == old(AttemptsOf(job))[attempt]
      ensures forall k | k != Key(job) :: Lookup(keys, k) == Lookup(old(keys), k)
    {
      OthersLeaveAttempt(View(job, fires), others, attempt);
      var c := Run(Next, View(job, fires), others);
      now := c.now;
      keys := keys[Key(job) := c.slot];
      attempts := attempts[job := c.attempts];
    }

    method TrySetNX(key: string, attempt: nat, ttl: int, fate: Fate) returns (ok: bool, failed: bool)
      modifies `keys
      ensures keys == if fate.Applied() then old(keys)[key := SetNX(Lookup(old(keys), key), attempt, ttl, now)]
              else old(keys)
      ensures failed == fate.Lost?
      ensures !failed ==> (ok <==> !Lookup(old(keys), key).Occupied(now))
    {
      ok, failed := !Lookup(keys, key).Occupied(now), fate.Lost?;
      if fate.Applied() { keys := keys[key := SetNX(Lookup(keys, key), attempt, ttl, now)]; }
    }

    /** Claims the lock with the TTL computed when the clock was read. */
    method ClaimLock(job: string, fires: int -> int, attempt: nat, ttl: int, m: Moment)
      returns (ok: bool, ghost steps: seq<Step>)
      requires attempt in AttemptsOf(job) && AttemptsOf(job)[attempt].verdict.Pending? && LeavesAlone(m.others, attempt)
      requires ttl == fires(AttemptsOf(job)[attempt].readAt) - AttemptsOf(job)[attempt].readAt
      modifies `now, `keys, `attempts
      ensures View(job, fires) == Run(Next, old(View(job, fires)), steps) &&
              steps == m.others + [Claim(attempt, m.fate)]
      ensures attempt in AttemptsOf(job) && !AttemptsOf(job)[attempt].verdict.Pending?
      ensures ok <==> AttemptsOf(job)[attempt].verdict.Ran?
      ensures ok ==> m.fate.Answered? && Lookup(keys, "cron:" + job) == Stored(attempt, Until(now + ttl))
      ensures AttemptsOf(job)[attempt].readAt == old(AttemptsOf(job)[attempt].readAt)
      ensures forall k | k != Key(job) :: Lookup(keys, k) == Lookup(old(keys), k)
    {
      Pause(job, fires, attempt, m.others);
      steps := m.others + [Claim(attempt, m.fate)];
      RunSnoc(Next, old(View(job, fires)), m.others, Claim(attempt, m.fate));
      var before, a := View(job, fires), AttemptsOf(job)[attempt];
      var failed;
      ok, failed := TrySetNX(Key(job), attempt, ttl, m.fate);
      ok := ok && !failed;
      attempts := attempts[job := AttemptsOf(job)[attempt := a.(setAt := now, verdict := VerdictOf(before, m.fate))]];
    }

    /** One firing of a registered job: a run of the protocol in which this attempt reads the clock, lets others
        proceed, and claims the lock; fn is called exactly when the claim was answered yes. No other job's lock is
        touched. */
    method FireJob(job: JobMeta, attempt: nat, m: Moment) returns (called: bool, ghost steps: seq<Step>)
      requires Valid() && job in jobs
      requires attempt !in AttemptsOf(job.name) && LeavesAlone(m.others, attempt)
      modifies `now, `keys, `attempts
      ensures Valid()
      ensures var fires := parse(job.schedule).value;
              View(job.name, fires) == Run(Next, old(View(job.name, fires)), steps)
      ensures steps == [Fire(attempt)] + (m.others + [Claim(attempt, m.fate)])
      ensures attempt in AttemptsOf(job.name)
      ensures called <==> AttemptsOf(job.name)[attempt].verdict.Ran?
      ensures !AttemptsOf(job.name)[attempt].verdict.Pending? && AttemptsOf(job.name)[attempt].readAt == old(now)
      ensures var wait := parse(job.schedule).value(old(now)) - old(now);
              called ==> m.fate.Answered? && Lookup(keys, "cron:" + job.name) == Stored(attempt, Until(now + wait))
      ensures forall other | other != job.name ::
                Lookup(keys, "cron:" + other) == Lookup(old(keys), "cron:" + other)
    {
      forall other | other != job.name ensures "cron:" + other != Key(job.name) { KeysDiffer(other, job.name); }
      var fires := parse(job.schedule).value;
      var readAt := now;
      var ttl := fires(readAt) - readAt;
      attempts := attempts[job.name := AttemptsOf(job.name)[attempt := Attempt(now, now, Pending)]];
      RunOne(Next, old(View(job.name, fires)), Fire(attempt));

      called, steps := ClaimLock(job.name, fires, attempt, ttl, m);
      RunConcat(Next, old(View(job.name, fires)), [Fire(attempt)], steps);
      steps := [Fire(attempt)] + steps;
    }
  }
}
