/** The assignment lock: how many calls can be between a successful claim of a task's lock and its release. */
module TaskLock {
  import opened Prelude
  import opened Runs
  import opened Counting
  import opened KeyStore
  import opened TaskModel
  import opened TaskProtocol
  import opened TaskLineage

  predicate Holding(pc: PC)
  {
    pc.Reading? || pc.Checking? || pc.Saving? || pc.Publishing? || pc.Releasing?
  }

  predicate IsInside(w: World, call: nat, t: string)
  {
    && call in w.flights && w.flights[call].req.Assign?
    && w.flights[call].req.taskID == t && Holding(w.flights[call].pc)
  }

  /** The assign calls on t that have claimed the lock and not yet run their deferred DEL. */
  function Inside(w: World, t: string): set<nat>
  {
    set c | c in w.flights && IsInside(w, c, t)
  }

  function LockOf(w: World, t: string): Slot<nat> { Lookup(w.locks, LockKey(t)) }

  /** The lock is in force and its owner is still inside. */
  predicate Guarded(w: World, t: string)
  {
    LockOf(w, t).Occupied(w.now) && IsInside(w, LockOf(w, t).value, t)
  }

  /** The clock passes the deadline of t's lock while its owner is still inside. */
  predicate Overrun(w: World, s: Step, t: string)
  {
    s.Tick? && Guarded(w, t) && !LockOf(w, t).Occupied(w.now + s.seconds)
  }

  ghost function OverrunsOf(t: string): (World, Step) -> bool
  {
    (w, s) => Overrun(w, s, t)
  }

  lemma OthersStayInside(w: World, w': World, call: nat, f: Flight, t: string)
    requires w'.flights == w.flights[call := f]
    ensures Inside(w', t) - {call} == Inside(w, t) - {call}
  {
    forall c ensures c in Inside(w', t) - {call} <==> c in Inside(w, t) - {call} {
      assert c != call ==> (IsInside(w, c, t) <==> IsInside(w', c, t));
    }
  }

  /** Only the moving call can enter or leave. */
  lemma InsideChanges(w: World, w': World, call: nat, f: Flight, t: string)
    requires w'.flights == w.flights[call := f]
    ensures |Inside(w', t)| == |Inside(w, t)| - (if IsInside(w, call, t) then 1 else 0)
            + (if IsInside(w', call, t) then 1 else 0)
  {
    OthersStayInside(w, w', call, f, t);
    RemoveOne(Inside(w, t), call);
    RemoveOne(Inside(w', t), call);
  }

  /** How far the calls inside t's critical section outnumber its lock. */
  function Excess(w: World, t: string): int
  {
    |Inside(w, t)| - if Guarded(w, t) then 1 else 0
  }

  /** Whoever enters guards the lock from then on. */
  lemma ClaimAddsNoExcess(w: World, call: nat, fate: Fate, t: string)
    requires call in w.flights && w.flights[call].pc.Claiming?
    ensures Excess(Advanced(w, call, fate), t) <= Excess(w, t)
  {
    LockKeysDiffer(w.flights[call].req.taskID, t);
    InsideChanges(w, Advanced(w, call, fate), call, FlightAfter(w, w.flights[call], fate), t);
  }

  /** The deferred DEL may open somebody else's lock, but only as its caller leaves. */
  lemma ReleaseAddsNoExcess(w: World, call: nat, fate: Fate, t: string)
    requires call in w.flights && w.flights[call].pc.Releasing? && w.flights[call].req.Assign?
    ensures Excess(Advanced(w, call, fate), t) <= Excess(w, t)
  {
    LockKeysDiffer(w.flights[call].req.taskID, t);
    InsideChanges(w, Advanced(w, call, fate), call, FlightAfter(w, w.flights[call], fate), t);
  }

  /** A call that moves on without touching the lock can only leave. */
  lemma LeavingAddsNoExcess(w: World, w': World, call: nat, f: Flight, t: string)
    requires w'.locks == w.locks && w'.now == w.now && w'.flights == w.flights[call := f]
    requires IsInside(w', call, t) ==> IsInside(w, call, t)
    ensures Excess(w', t) <= Excess(w, t)
  {
    InsideChanges(w, w', call, f, t);
  }

  lemma OnlyClaimsEnter(w: World, f: Flight, fate: Fate)
    requires !f.pc.Claiming? && f.req.Assign?
    ensures Holding(FlightAfter(w, f, fate).pc) ==> Holding(f.pc)
  {
  }

  /** Only an overrun raises the excess, and by one. */
  lemma StepExcess(w: World, s: Step, t: string)
    requires Good(w)
    ensures Excess(Next(w, s), t) <= Excess(w, t) + if Overrun(w, s, t) then 1 else 0
  {
    match s
    case Advance(call, fate) =>
      if call in w.flights { AdvanceAddsNoExcess(w, call, fate, t); }
    case Arrive(call, _) =>
      if Next(w, s) != w { LeavingAddsNoExcess(w, Next(w, s), call, Next(w, s).flights[call], t); }
    case Crash(call) =>
      if Crashed(w, call) != w { LeavingAddsNoExcess(w, Crashed(w, call), call, Crashed(w, call).flights[call], t); }
    case _ => ElsewhereExcess(w, s, t);
  }

  lemma ElsewhereExcess(w: World, s: Step, t: string)
    ensures Excess(Elsewhere(w, s), t) <= Excess(w, t) + if Overrun(w, s, t) then 1 else 0
  {
    assert Inside(Elsewhere(w, s), t) == Inside(w, t);
  }

  lemma AdvanceAddsNoExcess(w: World, call: nat, fate: Fate, t: string)
    requires Good(w) && call in w.flights
    ensures Excess(Advanced(w, call, fate), t) <= Excess(w, t)
  {
    var f := w.flights[call];
    assert FlightOk(w, f);
    if f.pc.Claiming? { ClaimAddsNoExcess(w, call, fate, t); }
    else if f.pc.Releasing? { ReleaseAddsNoExcess(w, call, fate, t); }
    else {
      if f.req.Assign? { OnlyClaimsEnter(w, f, fate); }
      LeavingAddsNoExcess(w, Advanced(w, call, fate), call, FlightAfter(w, f, fate), t);
    }
  }

  /** With crashes, lost replies, failed DELs and DELs that remove another caller's lock, the calls inside the
      critical section of a task number at most one more than its overruns. */
  lemma {:induction false} OverrunsBoundTheCriticalSection(now: int, steps: seq<Step>, t: string)
    ensures Excess(Run(Next, Start(now), steps), t) <= Count(Next, Start(now), steps, OverrunsOf(t))
    ensures |Inside(Run(Next, Start(now), steps), t)| <= 1 + Count(Next, Start(now), steps, OverrunsOf(t))
  {
    if steps != [] {
      var before := steps[..|steps| - 1];
      OverrunsBoundTheCriticalSection(now, before, t);
      RunIsGood(now, before);
      StepExcess(Run(Next, Start(now), before), steps[|steps| - 1], t);
    }
  }

  /** Without an overrun the lock gives mutual exclusion. */
  lemma NoOverrunMeansMutualExclusion(now: int, steps: seq<Step>, t: string)
    requires Count(Next, Start(now), steps, OverrunsOf(t)) == 0
    ensures var w := Run(Next, Start(now), steps);
            forall a, b | IsInside(w, a, t) && IsInside(w, b, t) :: a == b
  {
    var w := Run(Next, Start(now), steps);
    OverrunsBoundTheCriticalSection(now, steps, t);
    forall a, b | IsInside(w, a, t) && IsInside(w, b, t) ensures a == b {
      if a != b {
        assert {a, b} <= Inside(w, t);
        SubsetIsSmaller({a, b}, Inside(w, t));
      }
    }
  }

  // ---- the bound is exact ----

  function CrowdRequest(t: string): Request { Assign(t, "c", "u", "m") }

  /** n + 1 calls that claim the same lock one after another, each stalling until its lock has expired. */
  function Crowd(t: string, n: nat): seq<Step>
    decreases n, 1
  {
    Waited(t, n) + [Arrive(n, CrowdRequest(t))] + [Advance(n, Answered)]
  }

  /** The crowd before its n-th call arrives. */
  function Waited(t: string, n: nat): seq<Step>
    decreases n, 0
  {
    if n == 0 then [] else Crowd(t, n - 1) + [Tick(LOCK_TTL)]
  }

  ghost predicate Crowded(w: World, t: string, n: nat)
  {
    && (forall c :: c in w.flights <==> 0 <= c <= n)
    && (forall c | c in w.flights :: IsInside(w, c, t))
    && LockOf(w, t) == Stored(n, Until(w.now + LOCK_TTL))
  }

  /** Everybody so far is inside and nobody holds the lock any more. */
  ghost predicate Stalled(w: World, t: string, n: nat)
  {
    && (forall c :: c in w.flights <==> 0 <= c < n)
    && (forall c | c in w.flights :: IsInside(w, c, t))
    && !LockOf(w, t).Occupied(w.now)
  }

  lemma CrowdStalls(w: World, t: string, n: nat)
    requires n > 0 && Crowded(w, t, n - 1)
    ensures Overrun(w, Tick(LOCK_TTL), t) && Stalled(Next(w, Tick(LOCK_TTL)), t, n)
  {
  }

  lemma OneMoreInTheCrowd(w: World, t: string, n: nat)
    requires t != "" && Stalled(w, t, n)
    ensures Crowded(Next(Next(w, Arrive(n, CrowdRequest(t))), Advance(n, Answered)), t, n)
  {
    var asked := Next(w, Arrive(n, CrowdRequest(t)));
    assert asked.flights[n].pc == Claiming && LockOf(asked, t) == LockOf(w, t);
    var claimed := Next(asked, Advance(n, Answered));
    assert claimed.flights[n].pc == Reading;
  }

  lemma CrowdSize(w: World, t: string, n: nat)
    requires Crowded(w, t, n)
    ensures |Inside(w, t)| == n + 1
  {
    assert Inside(w, t) == Below(n + 1);
  }

  /** The crowd step by step, whatever a step does. */
  lemma CrowdRuns(next: (World, Step) -> World, s: World, p: (World, Step) -> bool, waited: seq<Step>, first: Step,
                  second: Step)
    ensures Run(next, s, waited + [first] + [second]) == next(next(Run(next, s, waited), first), second)
    ensures Count(next, s, waited + [first] + [second], p)
            == Count(next, s, waited, p) + (if p(Run(next, s, waited), first) then 1 else 0)
               + (if p(next(Run(next, s, waited), first), second) then 1 else 0)
  {
    RunSnoc(next, s, waited, first);
    RunSnoc(next, s, waited + [first], second);
    CountSnoc(next, s, waited, first, p);
    CountSnoc(next, s, waited + [first], second, p);
  }

  lemma CrowdJoins(now: int, t: string, n: nat)
    requires t != "" && Stalled(Run(Next, Start(now), Waited(t, n)), t, n)
    requires Count(Next, Start(now), Waited(t, n), OverrunsOf(t)) == n
    ensures Count(Next, Start(now), Crowd(t, n), OverrunsOf(t)) == n
    ensures Crowded(Run(Next, Start(now), Crowd(t, n)), t, n)
  {
    CrowdRuns(Next, Start(now), OverrunsOf(t), Waited(t, n), Arrive(n, CrowdRequest(t)), Advance(n, Answered));
    OneMoreInTheCrowd(Run(Next, Start(now), Waited(t, n)), t, n);
  }

  lemma CrowdWaits(now: int, t: string, n: nat)
    requires n > 0 && Crowded(Run(Next, Start(now), Crowd(t, n - 1)), t, n - 1)
    requires Count(Next, Start(now), Crowd(t, n - 1), OverrunsOf(t)) == n - 1
    ensures Stalled(Run(Next, Start(now), Waited(t, n)), t, n)
    ensures Count(Next, Start(now), Waited(t, n), OverrunsOf(t)) == n
  {
    CrowdStalls(Run(Next, Start(now), Crowd(t, n - 1)), t, n);
    RunSnoc(Next, Start(now), Crowd(t, n - 1), Tick(LOCK_TTL));
    CountSnoc(Next, Start(now), Crowd(t, n - 1), Tick(LOCK_TTL), OverrunsOf(t));
  }

  /** For every number of overruns the bound is reached: that many overruns, and one call more inside. */
  lemma {:induction false} TheBoundIsReached(now: int, t: string, n: nat)
    requires t != ""
    ensures Count(Next, Start(now), Crowd(t, n), OverrunsOf(t)) == n
    ensures |Inside(Run(Next, Start(now), Crowd(t, n)), t)| == n + 1
    ensures Crowded(Run(Next, Start(now), Crowd(t, n)), t, n)
  {
    if n > 0 {
      TheBoundIsReached(now, t, n - 1);
      CrowdWaits(now, t, n);
    }
    CrowdJoins(now, t, n);
    CrowdSize(Run(Next, Start(now), Crowd(t, n)), t, n);
  }
}
