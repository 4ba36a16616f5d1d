/** The gateway's rate limiter as seen by one client: INCR and EXPIRE are two commands, sent by any number of
    gateways, and the second may be late, lost or repeated. */
module RateLimit {
  import opened Prelude
  import opened KeyStore
  import opened Runs
  import opened Counting

  /** A minute, in the milliseconds of the store's clock. */
  const MINUTE: int := 60_000

  datatype Phase = Expiring | Deciding | Admitted(at: int) | Rejected | FailedOpen

  /** One request: when its INCR ran, which counter it hit, what it read there, and how far it has come. */
  datatype Visit = Visit(countedAt: int, window: int, count: int, phase: Phase)

  /** The client's counter, its visits, and the times at which its counters were created. */
  datatype Gate = Gate(limit: int, now: int, slot: Slot<int>, visits: map<nat, Visit>, starts: seq<int>)

  datatype Step =
    | Count(visit: nat, fate: Fate)    // the INCR of a new request
    | Proceed(visit: nat, fate: Fate)  // its EXPIRE, if it read 1; then its decision
    | Echo(visit: nat)                 // an EXPIRE of a request that read 1, sent once more by other than the gateway
    | Tick(ms: nat)

  function Open(limit: int, now: int): Gate
  {
    Gate(limit, now, Empty, map[], [])
  }

  function StartsAfterCount(g: Gate, fate: Fate): seq<int>
  {
    if fate.Applied() && !g.slot.Occupied(g.now) then g.starts + [g.now] else g.starts
  }

  function NewVisit(g: Gate, fate: Fate): Visit
  {
    if fate.Lost? then Visit(g.now, 0, 0, FailedOpen)
    else
      var counter := Increment(g.slot, g.now);
      Visit(g.now, |StartsAfterCount(g, fate)| - 1, counter.value, if counter.value == 1 then Expiring else Deciding)
  }

  function Counted(g: Gate, visit: nat, fate: Fate): Gate
  {
    if visit in g.visits then g
    else g.(slot := if fate.Applied() then Increment(g.slot, g.now) else g.slot,
            starts := StartsAfterCount(g, fate),
            visits := g.visits[visit := NewVisit(g, fate)])
  }

  function PhaseAfter(g: Gate, v: Visit): Phase
  {
    match v.phase
    case Expiring => Deciding
    case Deciding => if v.count > g.limit then Rejected else Admitted(g.now)
    case _ => v.phase
  }

  function Proceeded(g: Gate, visit: nat, fate: Fate): Gate
  {
    if visit !in g.visits then g
    else
      var v := g.visits[visit];
      g.(slot := if v.phase.Expiring? && fate.Applied() then Expire(g.slot, MINUTE, g.now) else g.slot,
         visits := g.visits[visit := v.(phase := PhaseAfter(g, v))])
  }

  function Next(g: Gate, s: Step): Gate
  {
    match s
    case Count(visit, fate) => Counted(g, visit, fate)
    case Proceed(visit, fate) => Proceeded(g, visit, fate)
    case Echo(visit) =>
      if visit in g.visits && g.visits[visit].count == 1 then g.(slot := Expire(g.slot, MINUTE, g.now)) else g
    case Tick(ms) => g.(now := g.now + ms)
  }

  // ---- what every reachable state keeps ----

  /** The visit knows what it read. */
  predicate Numbered(v: Visit) { !v.phase.FailedOpen? }

  ghost predicate VisitOk(g: Gate, v: Visit)
  {
    Numbered(v) ==>
      && 0 <= v.window < |g.starts| && 1 <= v.count
      && g.starts[v.window] <= v.countedAt <= g.now
      && (v.window + 1 < |g.starts| ==> v.countedAt < g.starts[v.window + 1])
      && (v.window + 1 == |g.starts| ==>
            && g.slot.Stored? && v.count <= g.slot.value
            && (g.slot.deadline.Until? ==> v.countedAt < g.slot.deadline.time))
      && (v.count == 1 ==> v.countedAt == g.starts[v.window])
      && (v.phase.Admitted? ==> v.count <= g.limit && v.countedAt <= v.phase.at <= g.now)
  }

  ghost predicate Distinct(visits: map<nat, Visit>)
  {
    forall u, v | u in visits && v in visits && u != v && Numbered(visits[u]) && Numbered(visits[v]) ::
      visits[u].window != visits[v].window || visits[u].count != visits[v].count
  }

  /** Counters are created at least a minute apart, and the present one lives on for a minute at least. */
  ghost predicate Spaced(g: Gate)
  {
    && (forall i | 0 <= i < |g.starts| - 1 :: g.starts[i] + MINUTE <= g.starts[i + 1])
    && (g.starts != [] ==> g.slot.Stored? && g.slot.value >= 1 && g.starts[|g.starts| - 1] <= g.now)
    && (g.starts == [] ==> g.slot.Empty?)
    && (g.slot.Stored? && g.slot.deadline.Until? ==> g.starts[|g.starts| - 1] + MINUTE <= g.slot.deadline.time)
  }

  ghost predicate Good(g: Gate)
  {
    && Spaced(g)
    && (forall v | v in g.visits :: VisitOk(g, g.visits[v]))
    && Distinct(g.visits)
  }

  lemma CountKeepsSpaced(g: Gate, visit: nat, fate: Fate)
    requires Spaced(g)
    ensures Spaced(Counted(g, visit, fate))
  {
  }

  lemma CountKeepsVisits(g: Gate, visit: nat, fate: Fate, v: Visit)
    requires Spaced(g) && VisitOk(g, v)
    ensures VisitOk(Counted(g, visit, fate), v)
  {
  }

  lemma NewVisitOk(g: Gate, visit: nat, fate: Fate)
    requires Good(g) && visit !in g.visits
    ensures VisitOk(Counted(g, visit, fate), NewVisit(g, fate))
    ensures Distinct(Counted(g, visit, fate).visits)
  {
    forall u | u in g.visits ensures VisitOk(g, g.visits[u]) {}
  }

  lemma CountKeeps(g: Gate, visit: nat, fate: Fate)
    requires Good(g)
    ensures Good(Counted(g, visit, fate))
  {
    if visit !in g.visits {
      CountKeepsSpaced(g, visit, fate);
      NewVisitOk(g, visit, fate);
      forall v | v in g.visits ensures VisitOk(Counted(g, visit, fate), g.visits[v]) {
        CountKeepsVisits(g, visit, fate, g.visits[v]);
      }
    }
  }

  lemma ProceedKeepsDistinct(g: Gate, visit: nat, fate: Fate)
    requires Distinct(g.visits) && visit in g.visits
    ensures Distinct(Proceeded(g, visit, fate).visits)
  {
    var visits := Proceeded(g, visit, fate).visits;
    forall u | u in visits
      ensures u in g.visits && visits[u].window == g.visits[u].window && visits[u].count == g.visits[u].count
      ensures Numbered(visits[u]) ==> Numbered(g.visits[u])
    {
    }
  }

  lemma ProceedKeepsVisit(g: Gate, visit: nat, fate: Fate, v: nat)
    requires Spaced(g) && visit in g.visits && v in g.visits && VisitOk(g, g.visits[visit]) && VisitOk(g, g.visits[v])
    ensures VisitOk(Proceeded(g, visit, fate), Proceeded(g, visit, fate).visits[v])
  {
  }

  lemma ProceedKeeps(g: Gate, visit: nat, fate: Fate)
    requires Good(g)
    ensures Good(Proceeded(g, visit, fate))
  {
    if visit in g.visits {
      ProceedKeepsDistinct(g, visit, fate);
      forall v | v in g.visits
        ensures VisitOk(Proceeded(g, visit, fate), Proceeded(g, visit, fate).visits[v])
      {
        assert VisitOk(g, g.visits[visit]) && VisitOk(g, g.visits[v]);
        ProceedKeepsVisit(g, visit, fate, v);
      }
    }
  }

  lemma NextKeeps(g: Gate, s: Step)
    requires Good(g)
    ensures Good(Next(g, s))
  {
    match s
    case Count(visit, fate) => CountKeeps(g, visit, fate);
    case Proceed(visit, fate) => ProceedKeeps(g, visit, fate);
    case Echo(_) =>
    case Tick(_) =>
  }

  lemma {:induction false} RunIsGood(limit: int, now: int, steps: seq<Step>)
    ensures Good(Run(Next, Open(limit, now), steps))
    ensures Run(Next, Open(limit, now), steps).limit == limit
  {
    if steps != [] {
      var before := steps[..|steps| - 1];
      RunIsGood(limit, now, before);
      NextKeeps(Run(Next, Open(limit, now), before), steps[|steps| - 1]);
    }
  }

  // ---- the bound ----

  /** The admitted requests whose INCR fell in [from, to). */
  function AdmittedIn(g: Gate, from: int, to: int): set<nat>
  {
    set v | v in g.visits && g.visits[v].phase.Admitted? && from <= g.visits[v].countedAt < to
  }

  /** The requests let through in [from, to) because their INCR reported an error. */
  function FailedOpenIn(g: Gate, from: int, to: int): set<nat>
  {
    set v | v in g.visits && g.visits[v].phase.FailedOpen? && from <= g.visits[v].countedAt < to
  }

  /** How many minutes it takes to cover the given length. */
  function Minutes(length: int): int { (length + MINUTE - 1) / MINUTE }

  /** The most requests an interval of the given length can admit: a counter of limit requests for every minute, and all
      but the first request of one more counter that began before; unless the last minute is a single instant, in which
      only one of two counters can be running. */
  function Quota(limit: int, length: int): int
  {
    if limit <= 0 then 0
    else Minutes(length) * limit + if length % MINUTE == 1 then 0 else limit - 1
  }

  lemma {:induction false} StartsAreSpaced(starts: seq<int>, i: int, j: int)
    requires forall k | 0 <= k < |starts| - 1 :: starts[k] + MINUTE <= starts[k + 1]
    requires 0 <= i <= j < |starts|
    ensures starts[i] + MINUTE * (j - i) <= starts[j]
    decreases j - i
  {
    if i < j { StartsAreSpaced(starts, i, j - 1); }
  }

  /** Visits of one counter that read distinct numbers from lo to hi. */
  lemma {:induction false} OneWindowCount(visits: map<nat, Visit>, s: set<nat>, window: int, lo: int, hi: int)
    requires Distinct(visits) && lo <= hi
    requires forall v | v in s ::
             v in visits && Numbered(visits[v]) && visits[v].window == window && lo <= visits[v].count < hi
    ensures |s| <= hi - lo
    decreases hi - lo
  {
    if s != {} {
      if v :| v in s && visits[v].count == hi - 1 {
        OneWindowCount(visits, s - {v}, window, lo, hi - 1);
        RemoveOne(s, v);
      } else {
        var w :| w in s;
        OneWindowCount(visits, s, window, lo, hi - 1);
      }
    }
  }

  /** n times limit, by addition. */
  function Times(n: nat, limit: nat): nat
  {
    if n == 0 then 0 else Times(n - 1, limit) + limit
  }

  lemma {:induction false} TimesIsProduct(n: nat, limit: nat)
    ensures Times(n, limit) == n * limit
  {
    if n > 0 { TimesIsProduct(n - 1, limit); }
  }

  lemma {:induction false} TimesGrows(k: nat, n: nat, limit: nat)
    requires k <= n
    ensures Times(k, limit) <= Times(n, limit)
  {
    if k < n { TimesGrows(k, n - 1, limit); }
  }

  ghost predicate WithinWindows(visits: map<nat, Visit>, s: set<nat>, first: int, more: nat, limit: int, skip: int)
  {
    forall v | v in s ::
      v in visits && Numbered(visits[v]) && first <= visits[v].window <= first + more &&
      1 <= visits[v].count <= limit &&
      (visits[v].window == first ==> skip < visits[v].count)
  }

  lemma FirstWindowCount(visits: map<nat, Visit>, s: set<nat>, first: int, limit: nat, skip: int)
    requires Distinct(visits) && 0 <= skip <= 1 <= limit && WithinWindows(visits, s, first, 0, limit, skip)
    ensures |s| <= limit - skip
  {
    OneWindowCount(visits, s, first, 1 + skip, limit + 1);
  }

  /** The visits of the last window number the limit at most, and the others fall into one window less. */
  lemma LastWindowApart(visits: map<nat, Visit>, s: set<nat>, first: int, more: nat, limit: nat, skip: int)
    returns (last: set<nat>, rest: set<nat>)
    requires Distinct(visits) && limit >= 1 && more > 0 && WithinWindows(visits, s, first, more, limit, skip)
    ensures |s| == |last| + |rest| && |last| <= limit && WithinWindows(visits, rest, first, more - 1, limit, skip)
  {
    last := set v | v in s && visits[v].window == first + more;
    rest := s - last;
    OneWindowCount(visits, last, first + more, 1, limit + 1);
    PartsOf(s, last);
  }

  /** Visits of a counter and the next few, where the first number or none of the first counter is skipped. */
  lemma {:induction false} WindowsCount(visits: map<nat, Visit>, s: set<nat>, first: int, more: nat, limit: nat,
                                        skip: int)
    requires Distinct(visits) && 0 <= skip <= 1 <= limit
    requires WithinWindows(visits, s, first, more, limit, skip)
    ensures |s| <= Times(more + 1, limit) - skip
    decreases more
  {
    if more == 0 {
      FirstWindowCount(visits, s, first, limit, skip);
    } else {
      var last, rest := LastWindowApart(visits, s, first, more, limit, skip);
      WindowsCount(visits, rest, first, more - 1, limit, skip);
    }
  }

  lemma PartsOf(s: set<nat>, part: set<nat>)
    requires part <= s
    ensures |s| == |part| + |s - part|
  {
    assert s == part + (s - part);
  }

  lemma {:induction false} Earliest(visits: map<nat, Visit>, s: set<nat>) returns (v: nat)
    requires s != {} && forall x | x in s :: x in visits
    ensures v in s && forall x | x in s :: visits[v].window <= visits[x].window
  {
    v :| v in s;
    if s != {v} {
      var u := Earliest(visits, s - {v});
      if visits[u].window < visits[v].window { v := u; }
    }
  }

  lemma {:induction false} Latest(visits: map<nat, Visit>, s: set<nat>) returns (v: nat)
    requires s != {} && forall x | x in s :: x in visits
    ensures v in s && forall x | x in s :: visits[x].window <= visits[v].window
  {
    v :| v in s;
    if s != {v} {
      var u := Latest(visits, s - {v});
      if visits[v].window < visits[u].window { v := u; }
    }
  }

  /** An interval touches at most one counter created before it, and one per minute after that. */
  lemma WindowsTouched(g: Gate, from: int, length: int, early: Visit, late: Visit)
    requires Spaced(g) && VisitOk(g, early) && VisitOk(g, late) && Numbered(early) && Numbered(late) && length >= 1
    requires from <= early.countedAt && late.countedAt < from + length && early.window <= late.window
    ensures late.window - early.window <= Minutes(length - 1)
    ensures from <= g.starts[early.window] ==> late.window - early.window + 1 <= Minutes(length)
  {
    if early.window < late.window { StartsAreSpaced(g.starts, early.window + 1, late.window); }
    StartsAreSpaced(g.starts, early.window, late.window);
  }

  lemma AdmissionsAreBounded(g: Gate, from: int, length: int)
    requires Good(g) && length >= 1
    ensures |AdmittedIn(g, from, from + length)| <= Quota(g.limit, length)
  {
    var s := AdmittedIn(g, from, from + length);
    forall v | v in s ensures VisitOk(g, g.visits[v]) {}
    if s != {} {
      var u := Earliest(g.visits, s);
      var v := Latest(g.visits, s);
      var early, late := g.visits[u], g.visits[v];
      WindowsTouched(g, from, length, early, late);
      var skip := if from <= g.starts[early.window] then 0 else 1;
      WindowsCount(g.visits, s, early.window, late.window - early.window, g.limit, skip);
      SlotsWithinQuota(late.window - early.window + 1, length, g.limit, skip);
    }
  }

  lemma SlotsWithinQuota(k: nat, length: int, limit: nat, skip: int)
    requires length >= 1 && limit >= 1 && 0 <= skip <= 1
    requires k <= if skip == 0 then Minutes(length) else Minutes(length - 1) + 1
    ensures Times(k, limit) - skip <= Quota(limit, length)
  {
    var n := Minutes(length);
    TimesGrows(k, if skip == 0 then n else Minutes(length - 1) + 1, limit);
    TimesIsProduct(n, limit);
    InstantsAddNoMinute(length);
  }

  lemma InstantsAddNoMinute(length: int)
    requires length >= 1
    ensures Minutes(length - 1) == if length % MINUTE == 1 then Minutes(length) - 1 else Minutes(length)
  {
  }

  /** The requests a client gets through in any interval, over any run of any number of gateways, with EXPIREs late,
      lost or repeated: at most the quota, plus those whose INCR reported an error. */
  lemma IntervalsAreBounded(limit: int, now: int, steps: seq<Step>, from: int, length: int)
    requires length >= 1
    ensures var g := Run(Next, Open(limit, now), steps);
            |AdmittedIn(g, from, from + length) + FailedOpenIn(g, from, from + length)|
            <= Quota(limit, length) + |FailedOpenIn(g, from, from + length)|
  {
    var g := Run(Next, Open(limit, now), steps);
    RunIsGood(limit, now, steps);
    AdmissionsAreBounded(g, from, length);
    assert AdmittedIn(g, from, from + length) !! FailedOpenIn(g, from, from + length);
  }

  /** The requests whose decision to admit fell in [from, to). */
  function DecidedIn(g: Gate, from: int, to: int): set<nat>
  {
    set v | v in g.visits && g.visits[v].phase.Admitted? && from <= g.visits[v].phase.at < to
  }

  /** Every admitted request was decided at most so long after its INCR. */
  ghost predicate DecidedWithin(g: Gate, latency: int)
  {
    forall v | v in g.visits && g.visits[v].phase.Admitted? :: g.visits[v].phase.at <= g.visits[v].countedAt + latency
  }

  lemma DecidedWereCounted(g: Gate, from: int, to: int, latency: nat)
    requires Good(g) && DecidedWithin(g, latency)
    ensures |DecidedIn(g, from, to)| <= |AdmittedIn(g, from - latency, to)|
  {
    forall v | v in DecidedIn(g, from, to)
      ensures v in AdmittedIn(g, from - latency, to)
    {
      assert VisitOk(g, g.visits[v]);
    }
    SubsetIsSmaller(DecidedIn(g, from, to), AdmittedIn(g, from - latency, to));
  }

  lemma DecisionsFitTheQuota(g: Gate, from: int, length: int, latency: nat)
    requires Good(g) && DecidedWithin(g, latency) && length >= 1
    ensures |DecidedIn(g, from, from + length)| <= Quota(g.limit, length + latency)
  {
    DecidedWereCounted(g, from, from + length, latency);
    AdmissionsAreBounded(g, from - latency, length + latency);
    assert from - latency + (length + latency) == from + length;
  }

  /** Counted by the time of the decision instead of the INCR, the interval grows by the time a request may take
      from the one to the other. */
  lemma DecisionsAreBounded(limit: int, now: int, steps: seq<Step>, from: int, length: int, latency: nat)
    requires length >= 1 && DecidedWithin(Run(Next, Open(limit, now), steps), latency)
    ensures |DecidedIn(Run(Next, Open(limit, now), steps), from, from + length)| <= Quota(limit, length + latency)
  {
    RunIsGood(limit, now, steps);
    DecisionsFitTheQuota(Run(Next, Open(limit, now), steps), from, length, latency);
  }

  // ---- a counter without a deadline ----

  /** The counter is used up and has no deadline. */
  predicate UsedUp(g: Gate)
  {
    g.slot.Stored? && g.slot.deadline.Never? && g.slot.value >= g.limit && g.slot.value >= 1
  }

  /** The step gives the counter a deadline. */
  predicate ExpireLands(g: Gate, s: Step)
  {
    || (s.Proceed? && s.visit in g.visits && g.visits[s.visit].phase.Expiring? && s.fate.Applied())
    || (s.Echo? && s.visit in g.visits && g.visits[s.visit].count == 1)
  }

  ghost function NoExpire(): (Gate, Step) -> bool { (g, s) => !ExpireLands(g, s) }

  /** The request came after the given state and can only be rejected, or failed open. */
  predicate Hopeless(g: Gate, v: Visit)
  {
    v.phase.FailedOpen? || v.phase.Rejected? || (v.phase.Deciding? && v.count > g.limit)
  }

  /** The counter still is used up, and no request that came since was or will be admitted by its count. */
  ghost predicate ShutOut(g: Gate, g': Gate)
  {
    && UsedUp(g') && g'.limit == g.limit
    && (forall v | v in g'.visits && v !in g.visits :: Hopeless(g, g'.visits[v]) && g'.visits[v].count != 1)
  }

  lemma StaysShutOut(g: Gate, g': Gate, s: Step)
    requires ShutOut(g, g') && !ExpireLands(g', s)
    ensures ShutOut(g, Next(g', s))
  {
  }

  /** Once the counter is used up and has no deadline, no new request is ever admitted by its count, by any number of
      gateways, until some EXPIRE lands. */
  lemma {:induction false} NoExpireNoAdmission(g: Gate, more: seq<Step>)
    requires UsedUp(g) && Always(Next, g, more, NoExpire())
    ensures ShutOut(g, Run(Next, g, more))
  {
    if more != [] {
      var before := more[..|more| - 1];
      NoExpireNoAdmission(g, before);
      StaysShutOut(g, Run(Next, g, before), more[|more| - 1]);
    }
  }

  /** Every EXPIRE is one that a gateway sends, once for each request that reads 1. */
  predicate NoEcho(g: Gate, s: Step) { !s.Echo? }

  /** No new request is ever admitted by its count, whatever the gateways do. */
  ghost predicate ShutOutForGood(g: Gate)
  {
    forall more, v | Always(Next, g, more, NoEcho) && v in Run(Next, g, more).visits && v !in g.visits ::
      !Run(Next, g, more).visits[v].phase.Admitted?
  }

  /** No request has its EXPIRE still to send. */
  ghost predicate NobodyExpires(g: Gate)
  {
    forall v | v in g.visits :: !g.visits[v].phase.Expiring?
  }

  lemma StepExpiresNothing(g: Gate, g': Gate, s: Step)
    requires ShutOut(g, g') && NobodyExpires(g') && !s.Echo?
    ensures ShutOut(g, Next(g', s)) && NobodyExpires(Next(g', s))
  {
    StaysShutOut(g, g', s);
  }

  lemma {:induction false} NobodyEverExpires(g: Gate, more: seq<Step>)
    requires UsedUp(g) && NobodyExpires(g) && Always(Next, g, more, NoEcho)
    ensures ShutOut(g, Run(Next, g, more)) && NobodyExpires(Run(Next, g, more))
  {
    if more != [] {
      NobodyEverExpires(g, more[..|more| - 1]);
      StepExpiresNothing(g, Run(Next, g, more[..|more| - 1]), more[|more| - 1]);
    }
  }

  /** From every state with a used-up counter without deadline: the client is shut out for good if and only if no
      request of its has its EXPIRE still to send. */
  lemma ShutOutForGoodIffNobodyExpires(g: Gate)
    requires g.limit >= 1 && UsedUp(g)
    ensures ShutOutForGood(g) <==> NobodyExpires(g)
  {
    if NobodyExpires(g) {
      forall more, v | Always(Next, g, more, NoEcho) && v in Run(Next, g, more).visits && v !in g.visits
        ensures !Run(Next, g, more).visits[v].phase.Admitted?
      {
        NobodyEverExpires(g, more);
        assert Hopeless(g, Run(Next, g, more).visits[v]);
      }
    } else {
      var x :| x in g.visits && g.visits[x].phase.Expiring?;
      var n := NumberAbove(g.visits.Keys);
      ExpireLetsIn(g, x, n);
    }
  }

  lemma {:induction false} NumberAbove(visits: set<nat>) returns (n: nat)
    ensures forall v | v in visits :: v < n
  {
    n := 0;
    if visits != {} {
      var v :| v in visits;
      n := NumberAbove(visits - {v});
      assert forall u | u in visits :: u == v || u in visits - {v};
      n := if n <= v then v + 1 else n;
    }
  }

  lemma {:induction false} EcholessRuns(g: Gate, steps: seq<Step>)
    requires forall k | 0 <= k < |steps| :: !steps[k].Echo?
    ensures Always(Next, g, steps, NoEcho)
  {
    if steps != [] { EcholessRuns(g, steps[..|steps| - 1]); }
  }

  /** The EXPIRE that is still to come lands and runs out after a minute, and the next request opens a new counter. */
  lemma ExpireLetsIn(g: Gate, x: nat, n: nat)
    requires UsedUp(g) && g.limit >= 1 && x in g.visits && g.visits[x].phase.Expiring? && Fresh(g, n)
    ensures !ShutOutForGood(g)
  {
    var waited := [Proceed(x, Answered)] + [Tick(MINUTE)];
    RunOne(Next, g, Proceed(x, Answered));
    RunSnoc(Next, g, [Proceed(x, Answered)], Tick(MINUTE));
    var g' := Run(Next, g, waited);
    assert !g'.slot.Occupied(g'.now) && g'.limit == g.limit && g'.visits.Keys == g.visits.Keys;
    RunConcat(Next, g, waited, Opening(n));
    OpeningRuns(g', n);
    var more := waited + Opening(n);
    EcholessRuns(g, more);
    assert n in Run(Next, g, more).visits && n !in g.visits && Run(Next, g, more).visits[n].phase.Admitted?;
  }

  // ---- one lost command shuts a client out ----

  /** The counter has just begun with the request n, without a deadline, and nobody sends it one. */
  ghost predicate Unguarded(g: Gate, n: nat)
  {
    g.slot == Stored(1, Never) && g.limit >= 1 && NobodyExpires(g) && Fresh(g, n + 1)
  }

  /** The requests that use up such a counter leave the client shut out for good. */
  lemma UnguardedCounterShutsOut(g: Gate, n: nat)
    requires Unguarded(g, n)
    ensures ShutOutForGood(Run(Next, g, Wave(n + 1, g.limit - 1)))
  {
    WaveRuns(g, n + 1, g.limit - 1);
    var end := Run(Next, g, Wave(n + 1, g.limit - 1));
    assert forall v | v in end.visits ::
        if v in g.visits then end.visits[v] == g.visits[v] else end.visits[v].phase.Admitted?;
    ShutOutForGoodIffNobodyExpires(end);
  }

  /** No counter is running and nobody sends an EXPIRE; request n is new. */
  ghost predicate Idle(g: Gate, n: nat)
  {
    !g.slot.Occupied(g.now) && g.limit >= 1 && NobodyExpires(g) && Fresh(g, n)
  }

  /** A request that opens a counter, whose EXPIRE is lost. */
  function UnexpiredOpening(n: nat): seq<Step>
  {
    [Count(n, Answered)] + [Proceed(n, Lost(false))] + [Proceed(n, Answered)]
  }

  /** From every idle state, the start included, for every positive limit: if one EXPIRE is lost, then after the next
      requests up to the limit no other is ever admitted. */
  lemma OneLostExpireShutsOut(g: Gate, n: nat)
    requires Idle(g, n)
    ensures ShutOutForGood(Run(Next, g, UnexpiredOpening(n) + Wave(n + 1, g.limit - 1)))
  {
    RunOne(Next, g, Count(n, Answered));
    RunSnoc(Next, g, [Count(n, Answered)], Proceed(n, Lost(false)));
    RunSnoc(Next, g, [Count(n, Answered)] + [Proceed(n, Lost(false))], Proceed(n, Answered));
    var begun := Run(Next, g, UnexpiredOpening(n));
    assert begun.visits == g.visits[n := Visit(g.now, |g.starts|, 1, Admitted(g.now))];
    UnguardedCounterShutsOut(begun, n);
    RunConcat(Next, g, UnexpiredOpening(n), Wave(n + 1, g.limit - 1));
  }

  /** Likewise if the reply of one INCR that opens a counter is lost, since nobody then sends its EXPIRE. */
  lemma OneLostReplyShutsOut(g: Gate, n: nat)
    requires Idle(g, n)
    ensures ShutOutForGood(Run(Next, g, [Count(n, Lost(true))] + Wave(n + 1, g.limit - 1)))
  {
    RunOne(Next, g, Count(n, Lost(true)));
    UnguardedCounterShutsOut(Next(g, Count(n, Lost(true))), n);
    RunConcat(Next, g, [Count(n, Lost(true))], Wave(n + 1, g.limit - 1));
  }

  // ---- the bound is reached ----

  /** A request that finds no counter, sets its expiry and is admitted. */
  function Opening(visit: nat): seq<Step>
  {
    [Count(visit, Answered)] + [Proceed(visit, Answered)] + [Proceed(visit, Answered)]
  }

  /** n requests, one after another, on a counter that is running. */
  function Wave(first: nat, n: nat): seq<Step>
  {
    if n == 0 then [] else Wave(first, n - 1) + [Count(first + n - 1, Answered)] + [Proceed(first + n - 1, Answered)]
  }

  ghost predicate Fresh(g: Gate, visit: nat)
  {
    forall v | v in g.visits :: v < visit
  }

  lemma OpeningCounts(g: Gate, visit: nat)
    requires !g.slot.Occupied(g.now) && visit !in g.visits
    ensures Next(g, Count(visit, Answered)) == g.(slot := Stored(1, Never), starts := g.starts + [g.now],
                                                  visits := g.visits[visit := Visit(g.now, |g.starts|, 1, Expiring)])
  {
  }

  lemma OpeningProceeds(g: Gate, visit: nat)
    requires visit in g.visits && g.visits[visit].phase.Expiring? && g.visits[visit].count <= g.limit
    requires g.slot == Stored(1, Never)
    ensures Next(Next(g, Proceed(visit, Answered)), Proceed(visit, Answered))
            == g.(slot := Stored(1, Until(g.now + MINUTE)),
                  visits := g.visits[visit := g.visits[visit].(phase := Admitted(g.now))])
  {
    var timed := Next(g, Proceed(visit, Answered));
    assert timed.visits[visit] == g.visits[visit].(phase := Deciding);
  }

  lemma OpeningRuns(g: Gate, visit: nat)
    requires !g.slot.Occupied(g.now) && Fresh(g, visit) && g.limit >= 1
    ensures Run(Next, g, Opening(visit))
            == g.(slot := Stored(1, Until(g.now + MINUTE)), starts := g.starts + [g.now],
                  visits := g.visits[visit := Visit(g.now, |g.starts|, 1, Admitted(g.now))])
  {
    RunOne(Next, g, Count(visit, Answered));
    RunSnoc(Next, g, [Count(visit, Answered)], Proceed(visit, Answered));
    RunSnoc(Next, g, [Count(visit, Answered)] + [Proceed(visit, Answered)], Proceed(visit, Answered));
    OpeningCounts(g, visit);
    OpeningProceeds(Next(g, Count(visit, Answered)), visit);
  }

  /** n more requests have been admitted on the running counter. */
  ghost predicate Waved(g: Gate, g': Gate, first: nat, n: nat)
    requires g.slot.Stored?
  {
    && g' == g.(slot := g.slot.(value := g.slot.value + n), visits := g'.visits)
    && (forall v :: v in g'.visits <==> v in g.visits || first <= v < first + n)
    && (forall v | v in g.visits :: g'.visits[v] == g.visits[v])
    && (forall v | first <= v < first + n ::
          g'.visits[v] == Visit(g.now, |g.starts| - 1, g.slot.value + v - first + 1, Admitted(g.now)))
  }

  lemma {:induction false} WaveRuns(g: Gate, first: nat, n: nat)
    requires g.slot.Occupied(g.now) && g.slot.value >= 1 && g.slot.value + n <= g.limit && Fresh(g, first)
    ensures Waved(g, Run(Next, g, Wave(first, n)), first, n)
  {
    if n > 0 {
      WaveRuns(g, first, n - 1);
      var before := Run(Next, g, Wave(first, n - 1));
      var visit := first + n - 1;
      RunSnoc(Next, g, Wave(first, n - 1), Count(visit, Answered));
      RunSnoc(Next, g, Wave(first, n - 1) + [Count(visit, Answered)], Proceed(visit, Answered));
      OneMoreAdmitted(before, visit);
      WavedOneMore(g, before, Run(Next, g, Wave(first, n)), first, n);
    }
  }

  lemma WavedOneMore(g: Gate, before: Gate, after: Gate, first: nat, n: nat)
    requires g.slot.Stored? && n > 0 && Waved(g, before, first, n - 1) && Fresh(g, first)
    requires after == before.(slot := before.slot.(value := before.slot.value + 1),
                              visits := before.visits[first + n - 1 :=
                                Visit(before.now, |before.starts| - 1, before.slot.value + 1, Admitted(before.now))])
    ensures Waved(g, after, first, n)
  {
  }

  lemma OneMoreAdmitted(g: Gate, visit: nat)
    requires g.slot.Occupied(g.now) && 1 <= g.slot.value < g.limit && visit !in g.visits
    ensures Next(Next(g, Count(visit, Answered)), Proceed(visit, Answered))
            == g.(slot := g.slot.(value := g.slot.value + 1),
                  visits := g.visits[visit := Visit(g.now, |g.starts| - 1, g.slot.value + 1, Admitted(g.now))])
  {
    var counted := Next(g, Count(visit, Answered));
    assert counted.visits[visit] == Visit(g.now, |g.starts| - 1, g.slot.value + 1, Deciding);
  }

  /** The requests first, ..., first + n - 1 were admitted at the given time, and the earlier ones are as before. */
  ghost predicate AdmittedAt(before: map<nat, Visit>, after: map<nat, Visit>, first: nat, n: nat, time: int)
  {
    && (forall v :: v in after <==> v in before || first <= v < first + n)
    && (forall v | v in before && v in after :: after[v] == before[v])
    && (forall v | first <= v < first + n && v in after :: after[v].phase.Admitted? && after[v].countedAt == time)
  }

  lemma WaveAdmits(g: Gate, first: nat, n: nat)
    requires g.slot.Occupied(g.now) && g.slot.value >= 1 && g.slot.value + n <= g.limit && Fresh(g, first)
    ensures var g' := Run(Next, g, Wave(first, n));
            && AdmittedAt(g.visits, g'.visits, first, n, g.now) && g'.now == g.now && g'.limit == g.limit
            && g'.slot.Stored? && g'.slot.deadline == g.slot.deadline
  {
    WaveRuns(g, first, n);
  }

  lemma FirstOpened(limit: int) returns (g: Gate)
    requires limit >= 1
    ensures g == Run(Next, Open(limit, 0), Opening(0) + [Tick(MINUTE - 1)])
    ensures g.now == MINUTE - 1 && g.limit == limit && g.slot == Stored(1, Until(MINUTE))
    ensures g.visits == map[0 := Visit(0, 0, 1, Admitted(0))]
  {
    OpeningRuns(Open(limit, 0), 0);
    RunSnoc(Next, Open(limit, 0), Opening(0), Tick(MINUTE - 1));
    g := Run(Next, Open(limit, 0), Opening(0) + [Tick(MINUTE - 1)]);
  }

  lemma FirstHalf(limit: int) returns (g: Gate)
    requires limit >= 1
    ensures g == Run(Next, Open(limit, 0), Opening(0) + [Tick(MINUTE - 1)] + Wave(1, limit - 1) + [Tick(1)])
    ensures g.now == MINUTE && !g.slot.Occupied(g.now) && g.limit == limit
    ensures forall v: nat :: v in g.visits <==> v < limit
    ensures forall v | v in g.visits && v > 0 :: g.visits[v].phase.Admitted? && g.visits[v].countedAt == MINUTE - 1
    ensures 0 in g.visits && g.visits[0].countedAt == 0
  {
    var late := FirstOpened(limit);
    WaveAdmits(late, 1, limit - 1);
    RunConcat(Next, Open(limit, 0), Opening(0) + [Tick(MINUTE - 1)], Wave(1, limit - 1));
    RunSnoc(Next, Open(limit, 0), Opening(0) + [Tick(MINUTE - 1)] + Wave(1, limit - 1), Tick(1));
    g := Next(Run(Next, late, Wave(1, limit - 1)), Tick(1));
  }

  /** A counter is opened and used up at once, and a minute passes. */
  function FullCounter(limit: nat, first: nat): seq<Step>
    requires limit >= 1
  {
    Opening(first) + Wave(first + 1, limit - 1) + [Tick(MINUTE)]
  }

  lemma OpeningAdmits(g: Gate, first: nat)
    requires !g.slot.Occupied(g.now) && g.limit >= 1 && Fresh(g, first)
    ensures var g' := Run(Next, g, Opening(first));
            && AdmittedAt(g.visits, g'.visits, first, 1, g.now) && Fresh(g', first + 1)
            && g'.now == g.now && g'.limit == g.limit && g'.slot == Stored(1, Until(g.now + MINUTE))
  {
    OpeningRuns(g, first);
  }

  lemma CounterUsedUp(g: Gate, first: nat)
    requires !g.slot.Occupied(g.now) && g.limit >= 1 && Fresh(g, first)
    ensures var g' := Run(Next, g, Opening(first) + Wave(first + 1, g.limit - 1));
            && AdmittedAt(g.visits, g'.visits, first, g.limit, g.now)
            && g'.now == g.now && g'.limit == g.limit && g'.slot.Stored? && g'.slot.deadline == Until(g.now + MINUTE)
  {
    OpeningAdmits(g, first);
    var begun := Run(Next, g, Opening(first));
    WaveAdmits(begun, first + 1, g.limit - 1);
    RunConcat(Next, g, Opening(first), Wave(first + 1, g.limit - 1));
    AdmittedTwice(g.visits, begun.visits, Run(Next, begun, Wave(first + 1, g.limit - 1)).visits, first, g.limit - 1,
      g.now);
  }

  lemma FullCounterRuns(g: Gate, first: nat)
    requires !g.slot.Occupied(g.now) && g.limit >= 1 && Fresh(g, first)
    ensures var g' := Run(Next, g, FullCounter(g.limit, first));
            && AdmittedAt(g.visits, g'.visits, first, g.limit, g.now)
            && g'.now == g.now + MINUTE && g'.limit == g.limit && !g'.slot.Occupied(g'.now)
  {
    CounterUsedUp(g, first);
    RunSnoc(Next, g, Opening(first) + Wave(first + 1, g.limit - 1), Tick(MINUTE));
  }

  lemma AdmittedTwice(a: map<nat, Visit>, b: map<nat, Visit>, c: map<nat, Visit>, first: nat, n: nat, time: int)
    requires AdmittedAt(a, b, first, 1, time) && AdmittedAt(b, c, first + 1, n, time)
    ensures AdmittedAt(a, c, first, n + 1, time)
  {
  }

  /** k counters, one a minute, each used up as it is opened. */
  function FullCounters(limit: nat, first: nat, k: nat): seq<Step>
    requires limit >= 1
  {
    if k == 0 then [] else FullCounters(limit, first, k - 1) + FullCounter(limit, first + Times(k - 1, limit))
  }

  /** The requests first, ..., first + n - 1 were admitted between the given times, and the earlier ones are as
      before. */
  ghost predicate AdmittedBetween(before: map<nat, Visit>, after: map<nat, Visit>, first: nat, n: nat, early: int,
                                  late: int)
  {
    && (forall v :: v in after <==> v in before || first <= v < first + n)
    && (forall v | v in before && v in after :: after[v] == before[v])
    && (forall v | first <= v < first + n && v in after ::
         after[v].phase.Admitted? && early <= after[v].countedAt <= late)
  }

  lemma OneMoreCounter(a: map<nat, Visit>, b: map<nat, Visit>, c: map<nat, Visit>, first: nat, n: nat, limit: nat,
                       early: int, late: int, time: int)
    requires AdmittedBetween(a, b, first, n, early, late) && AdmittedAt(b, c, first + n, limit, time) &&
             early <= time && late <= time
    ensures AdmittedBetween(a, c, first, n + limit, early, time)
  {
  }

  /** The state after k full counters. */
  ghost predicate Filled(g: Gate, g': Gate, first: nat, k: nat)
  {
    && g.limit >= 1
    && AdmittedBetween(g.visits, g'.visits, first, Times(k, g.limit), g.now, g.now + 60_000 * (k - 1))
    && g'.now == g.now + 60_000 * k && g'.limit == g.limit && !g'.slot.Occupied(g'.now)
  }

  lemma FilledOnceMore(g: Gate, before: Gate, after: Gate, first: nat, k: nat)
    requires k >= 1 && Fresh(g, first) && Filled(g, before, first, k - 1)
    requires after == Run(Next, before, FullCounter(g.limit, first + Times(k - 1, g.limit)))
    ensures Filled(g, after, first, k)
  {
    var next := first + Times(k - 1, g.limit);
    assert Fresh(before, next);
    FullCounterRuns(before, next);
    OneMoreCounter(g.visits, before.visits, after.visits, first, Times(k - 1, g.limit), g.limit,
                   g.now, g.now + 60_000 * (k - 2), before.now);
  }

  lemma NothingFilled(g: Gate, first: nat)
    requires !g.slot.Occupied(g.now) && g.limit >= 1
    ensures Filled(g, g, first, 0)
  {
  }

  /** The state after k full counters, counter by counter. */
  function Filling(next: (Gate, Step) -> Gate, g: Gate, limit: nat, first: nat, k: nat): Gate
    requires limit >= 1
  {
    if k == 0 then g
    else Run(next, Filling(next, g, limit, first, k - 1), FullCounter(limit, first + Times(k - 1, limit)))
  }

  lemma {:induction false} FullCountersFill(next: (Gate, Step) -> Gate, g: Gate, limit: nat, first: nat, k: nat)
    requires limit >= 1
    ensures Run(next, g, FullCounters(limit, first, k)) == Filling(next, g, limit, first, k)
  {
    if k > 0 {
      FullCountersFill(next, g, limit, first, k - 1);
      RunConcat(next, g, FullCounters(limit, first, k - 1), FullCounter(limit, first + Times(k - 1, limit)));
    }
  }

  lemma FillingOnceMore(g: Gate, first: nat, k: nat)
    requires k >= 1 && g.limit >= 1 && Fresh(g, first)
    requires Filled(g, Filling(Next, g, g.limit, first, k - 1), first, k - 1)
    ensures Filled(g, Filling(Next, g, g.limit, first, k), first, k)
  {
    FilledOnceMore(g, Filling(Next, g, g.limit, first, k - 1), Filling(Next, g, g.limit, first, k), first, k);
  }

  lemma {:induction false} FullCountersRun(g: Gate, first: nat, k: nat)
    requires !g.slot.Occupied(g.now) && g.limit >= 1 && Fresh(g, first)
    ensures Filled(g, Filling(Next, g, g.limit, first, k), first, k)
  {
    if k == 0 {
      NothingFilled(g, first);
    } else {
      FullCountersRun(g, first, k - 1);
      FillingOnceMore(g, first, k);
    }
  }

  lemma AllAreAdmitted(g: Gate, end: Gate, k: nat)
    requires k >= 1 && g.visits == map[] && Filled(g, end, 0, k)
    ensures |AdmittedIn(end, g.now, g.now + 60_000 * (k - 1) + 1)| == Times(k, g.limit)
  {
    assert AdmittedIn(end, g.now, g.now + 60_000 * (k - 1) + 1) == Below(Times(k, g.limit));
  }

  lemma FullCountersFromTheStart(limit: nat, k: nat)
    requires limit >= 1 && k >= 1
    ensures |AdmittedIn(Run(Next, Open(limit, 0), FullCounters(limit, 0, k)), 0, 60_000 * (k - 1) + 1)|
            == Times(k, limit)
  {
    var g := Open(limit, 0);
    FullCountersRun(g, 0, k);
    FullCountersFill(Next, g, limit, 0, k);
    AllAreAdmitted(g, Filling(Next, g, limit, 0, k), k);
  }

  lemma FullCountersAfterALateOne(limit: nat, k: nat, length: nat) returns (steps: seq<Step>)
    requires limit >= 1 && length >= 1 && length % MINUTE != 1 && k == Minutes(length)
    ensures |AdmittedIn(Run(Next, Open(limit, 0), steps), MINUTE - 1, MINUTE - 1 + length)|
            == Times(k, limit) + limit - 1
  {
    var g := FirstHalf(limit);
    var first := Opening(0) + [Tick(MINUTE - 1)] + Wave(1, limit - 1) + [Tick(1)];
    steps := first + FullCounters(limit, limit, k);
    FullCountersRun(g, limit, k);
    FullCountersFill(Next, g, limit, limit, k);
    RunConcat(Next, Open(limit, 0), first, FullCounters(limit, limit, k));
    AllButTheFirst(g, Filling(Next, g, limit, limit, k), limit, k, length);
  }

  /** The bound is reached for every length: some interval of some run admits exactly its quota. */
  lemma QuotaIsReached(limit: nat, length: nat) returns (steps: seq<Step>, from: int)
    requires limit >= 1 && length >= 1
    ensures |AdmittedIn(Run(Next, Open(limit, 0), steps), from, from + length)| == Quota(limit, length)
  {
    var k := Minutes(length);
    TimesIsProduct(k, limit);
    if length % MINUTE == 1 {
      steps, from := FullCounters(limit, 0, k), 0;
      FullCountersFromTheStart(limit, k);
    } else {
      from := MINUTE - 1;
      steps := FullCountersAfterALateOne(limit, k, length);
    }
  }

  lemma AllButTheFirst(g: Gate, end: Gate, limit: nat, k: nat, length: nat)
    requires limit >= 1 && length >= 1 && length % MINUTE != 1 && k == Minutes(length)
    requires AdmittedBetween(g.visits, end.visits, limit, Times(k, limit), MINUTE, MINUTE + 60_000 * (k - 1))
    requires forall v: nat :: v in g.visits <==> v < limit
    requires forall v | v in g.visits && v > 0 :: g.visits[v].phase.Admitted? && g.visits[v].countedAt == MINUTE - 1
    requires 0 in g.visits && g.visits[0].countedAt == 0
    ensures |AdmittedIn(end, MINUTE - 1, MINUTE - 1 + length)| == Times(k, limit) + limit - 1
  {
    assert AdmittedIn(end, MINUTE - 1, MINUTE - 1 + length) == Below(limit + Times(k, limit)) - {0};
    RemoveOne(Below(limit + Times(k, limit)), 0);
  }

  /** For every positive limit there is a minute that admits one request less than twice the limit. */
  lemma AMinuteCanAdmitTheQuota(limit: nat) returns (steps: seq<Step>, from: int)
    requires limit >= 1
    ensures |AdmittedFrom(limit, 0, steps, from)| == 2 * limit - 1
  {
    steps, from := QuotaIsReached(limit, MINUTE);
  }

  /** The requests admitted in the minute that begins at the given time of a run. */
  function AdmittedFrom(limit: int, now: int, steps: seq<Step>, from: int): set<nat>
  {
    AdmittedIn(Run(Next, Open(limit, now), steps), from, from + 60_000)
  }

  /** No sixty seconds admit more than twice the limit less one. */
  lemma AMinuteAdmitsNoMore(limit: nat, now: int, steps: seq<Step>, from: int)
    requires limit >= 1
    ensures |AdmittedFrom(limit, now, steps, from)| <= 2 * limit - 1
  {
    RunIsGood(limit, now, steps);
    AdmissionsAreBounded(Run(Next, Open(limit, now), steps), from, MINUTE);
  }

  /** What the middleware's comment promises: no minute admits more requests than the limit. */
  ghost predicate MinutePromise(limit: int)
  {
    forall now, steps, from :: |AdmittedFrom(limit, now, steps, from)| <= if limit < 0 then 0 else limit
  }

  /** The code keeps that promise exactly for limits of at most one. */
  lemma MinutePromiseHoldsIffLimitIsOne(limit: int)
    ensures MinutePromise(limit) <==> limit <= 1
  {
    if limit <= 1 {
      forall now, steps, from ensures |AdmittedFrom(limit, now, steps, from)| <= if limit < 0 then 0 else limit {
        RunIsGood(limit, now, steps);
        AdmissionsAreBounded(Run(Next, Open(limit, now), steps), from, MINUTE);
      }
    } else {
      var steps, from := AMinuteCanAdmitTheQuota(limit);
      assert |AdmittedFrom(limit, 0, steps, from)| > limit;
    }
  }

  // ---- many clients in one store ----

  function Key(ip: string): string { "ratelimit:" + ip }

  lemma KeysDiffer(a: string, b: string)
    ensures Key(a) == Key(b) <==> a == b
  {
    var p := |"ratelimit:"|;
    assert Key(a)[p..] == a && Key(b)[p..] == b;
  }

  /** The key store of all clients, with every client's visits and counters. */
  datatype Store = Store(
    limit: int, now: int, keys: map<string, Slot<int>>, visits: map<string, map<nat, Visit>>,
    starts: map<string, seq<int>>)

  /** A step of the client at one address. */
  datatype Event = Event(ip: string, step: Step)

  function Opened(limit: int, now: int): Store { Store(limit, now, map[], map[], map[]) }

  /** The store as one client sees it. */
  function Seen(s: Store, ip: string): Gate
  {
    Gate(s.limit, s.now, Lookup(s.keys, Key(ip)), if ip in s.visits then s.visits[ip] else map[],
         if ip in s.starts then s.starts[ip] else [])
  }

  function Served(s: Store, e: Event): Store
  {
    var g := Next(Seen(s, e.ip), e.step);
    s.(now := g.now, keys := s.keys[Key(e.ip) := g.slot], visits := s.visits[e.ip := g.visits],
       starts := s.starts[e.ip := g.starts])
  }

  /** What a client takes part in: its own steps, and the passing of time. */
  function OwnSteps(events: seq<Event>, ip: string): seq<Step>
  {
    if events == [] then []
    else
      var last := events[|events| - 1];
      OwnSteps(events[..|events| - 1], ip) + if last.ip == ip || last.step.Tick? then [last.step] else []
  }

  lemma NextKeepsLimit(g: Gate, s: Step)
    ensures Next(g, s).limit == g.limit && (!s.Tick? ==> Next(g, s).now == g.now)
    ensures s.Tick? ==> Next(g, s) == g.(now := g.now + s.ms)
  {
  }

  lemma ServedAsSeen(s: Store, e: Event, ip: string)
    ensures Seen(Served(s, e), ip)
            == if e.ip == ip || e.step.Tick? then Next(Seen(s, ip), e.step) else Seen(s, ip)
  {
    KeysDiffer(e.ip, ip);
    NextKeepsLimit(Seen(s, e.ip), e.step);
    NextKeepsLimit(Seen(s, ip), e.step);
  }

  /** However the requests of many clients mix, each client sees what it would see if its own requests were all: no
      answer depends on another client's requests. */
  lemma {:induction false} ClientsAreIndependent(limit: int, now: int, events: seq<Event>, ip: string)
    ensures Seen(Run(Served, Opened(limit, now), events), ip)
            == Run(Next, Open(limit, now), OwnSteps(events, ip))
  {
    if events != [] {
      var before, last := events[..|events| - 1], events[|events| - 1];
      ClientsAreIndependent(limit, now, before, ip);
      ServedAsSeen(Run(Served, Opened(limit, now), before), last, ip);
      if last.ip == ip || last.step.Tick? {
        RunSnoc(Next, Open(limit, now), OwnSteps(before, ip), last.step);
      } else {
        assert OwnSteps(events, ip) == OwnSteps(before, ip);
      }
    }
  }

  /** So no interval admits more of a client's requests than its own quota, and another client cannot use it up. */
  lemma EveryClientHasItsOwnQuota(limit: int, now: int, events: seq<Event>, ip: string, from: int, length: int)
    requires length >= 1
    ensures |AdmittedIn(Seen(Run(Served, Opened(limit, now), events), ip), from, from + length)| <= Quota(limit, length)
  {
    ClientsAreIndependent(limit, now, events, ip);
    RunIsGood(limit, now, OwnSteps(events, ip));
    AdmissionsAreBounded(Run(Next, Open(limit, now), OwnSteps(events, ip)), from, length);
  }

  // ---- the middleware ----

  datatype Verdict = PassedOn | TooManyRequests

  /** What happens around one command: the steps of others before it, and the command's own fate. */
  datatype Moment = Moment(others: seq<Step>, fate: Fate)

  predicate Mentions(s: Step, visit: nat)
  {
    (s.Count? || s.Proceed?) && s.visit == visit
  }

  ghost predicate LeavesAlone(others: seq<Step>, visit: nat)
  {
    forall k | 0 <= k < |others| :: !Mentions(others[k], visit)
  }

  lemma {:induction false} OthersLeaveVisit(g: Gate, others: seq<Step>, visit: nat)
    requires LeavesAlone(others, visit)
    ensures var g' := Run(Next, g, others);
            (visit in g'.visits <==> visit in g.visits) && (visit in g.visits ==> g'.visits[visit] == g.visits[visit])
            && g'.limit == g.limit
  {
    if others != [] {
      OthersLeaveVisit(g, others[..|others| - 1], visit);
      assert !Mentions(others[|others| - 1], visit);
    }
  }

  /** The key store and the gateways' middleware; the bookkeeping follows the client at the given address. */
  class Gateway {
    const limit: int
    const ip: string
    var now: int
    var keys: map<string, Slot<int>>

    // bookkeeping, which the middleware does not read
    var visits: map<nat, Visit>
    var starts: seq<int>

    function View(): Gate
      reads this
    {
      Gate(limit, now, Lookup(keys, Key(ip)), visits, starts)
    }

    constructor (limit: int, ip: string, now: int)
      ensures View() == Open(limit, now)
      ensures this.ip == ip && this.limit == limit
    {
      this.limit, this.ip, this.now := limit, ip, now;
      keys, visits, starts := map[], map[], [];
    }

    /** Other requests of the same client proceed for a while. */
    method Pause(visit: nat, others: seq<Step>)
      requires LeavesAlone(others, visit)
      modifies this
      ensures View() == Run(Next, old(View()), others)
      ensures visit in visits <==> visit in old(visits)
      ensures visit in visits ==> visits[visit] == old(visits)[visit]
      ensures forall k | k != Key(ip) :: Lookup(keys, k) == Lookup(old(keys), k)
    {
      OthersLeaveVisit(View(), others, visit);
      var g := Run(Next, View(), others);
      now, visits, starts := g.now, g.visits, g.starts;
      keys := keys[Key(ip) := g.slot];
    }

    method Incr(key: string, fate: Fate) returns (count: int, failed: bool)
      modifies `keys
      ensures keys == if fate.Applied() then old(keys)[key := Increment(Lookup(old(keys), key), now)] else old(keys)
      ensures failed == fate.Lost?
      ensures !failed ==> count == Increment(Lookup(old(keys), key), now).value
    {
      var slot := Increment(Lookup(keys, key), now);
      if fate.Applied() { keys := keys[key := slot]; }
      count, failed := slot.value, fate.Lost?;
    }

    method SetExpiry(key: string, ttl: int, fate: Fate)
      modifies `keys
      ensures Lookup(keys, key) == if fate.Applied() then Expire(Lookup(old(keys), key), ttl, now)
              else Lookup(old(keys), key)
      ensures forall k | k != key :: Lookup(keys, k) == Lookup(old(keys), k)
    {
      if fate.Applied() && key in keys { keys := keys[key := Expire(keys[key], ttl, now)]; }
    }

    /** One request through the middleware, with anything the client's other requests do in between: a run of the
        protocol in which this request takes its own steps, ending as the answer says; no other client's counter
        is touched. */
    method Handle(visit: nat, script: seq<Moment>) returns (verdict: Verdict, ghost steps: seq<Step>)
      requires visit !in visits && |script| == 3
      requires forall k | 0 <= k < |script| :: LeavesAlone(script[k].others, visit)
      modifies this
      ensures View() == Run(Next, old(View()), steps)
      ensures visit in visits
      ensures steps == script[0].others + [Count(visit, script[0].fate)]
                       + if visits[visit].phase.FailedOpen? then []
                         else (if visits[visit].count == 1 then script[1].others + [Proceed(visit, script[1].fate)]
                           else [])
                              + (script[2].others + [Proceed(visit, script[2].fate)])
      ensures verdict == TooManyRequests <==> visits[visit].phase.Rejected?
      ensures verdict == PassedOn <==> visits[visit].phase.Admitted? || visits[visit].phase.FailedOpen?
      ensures visits[visit].phase.FailedOpen? <==> script[0].fate.Lost?
      ensures forall other | other != ip ::
                Lookup(keys, "ratelimit:" + other) == Lookup(old(keys), "ratelimit:" + other)
    {
      forall other | other != ip ensures "ratelimit:" + other != Key(ip) { KeysDiffer(other, ip); }
      var count, failed;
      count, failed, steps := CountRequest(visit, script[0]);
      if failed {
        return PassedOn, steps;
      }
      ghost var rest;
      verdict, rest := Complete(visit, count, script[1], script[2]);
      RunConcat(Next, old(View()), steps, rest);
      steps := steps + rest;
    }

    /** The rest of a request that was counted. */
    method Complete(visit: nat, count: int, expire: Moment, decide: Moment)
      returns (verdict: Verdict, ghost steps: seq<Step>)
      requires visit in visits && visits[visit].count == count && LeavesAlone(expire.others, visit) &&
               LeavesAlone(decide.others, visit)
      requires visits[visit].phase == if count == 1 then Expiring else Deciding
      modifies this
      ensures View() == Run(Next, old(View()), steps)
      ensures steps == (if count == 1 then expire.others + [Proceed(visit, expire.fate)] else [])
                       + (decide.others + [Proceed(visit, decide.fate)])
      ensures visit in visits && visits[visit].count == count
      ensures visits[visit].phase == (if verdict.PassedOn? then Admitted(now) else Rejected)
      ensures verdict.PassedOn? == (count <= limit)
      ensures forall k | k != Key(ip) :: Lookup(keys, k) == Lookup(old(keys), k)
    {
      steps := [];
      if count == 1 {
        steps := StartWindow(visit, expire);
      }
      ghost var deciding;
      verdict, deciding := Decide(visit, count, decide);
      RunConcat(Next, old(View()), steps, deciding);
      steps := steps + deciding;
    }

    method CountRequest(visit: nat, m: Moment) returns (count: int, failed: bool, ghost steps: seq<Step>)
      requires visit !in visits && LeavesAlone(m.others, visit)
      modifies this
      ensures View() == Run(Next, old(View()), steps) && steps == m.others + [Count(visit, m.fate)]
      ensures failed == m.fate.Lost? && visit in visits
      ensures visits[visit].phase == if failed then FailedOpen else if count == 1 then Expiring else Deciding
      ensures !failed ==> visits[visit].count == count
      ensures forall k | k != Key(ip) :: Lookup(keys, k) == Lookup(old(keys), k)
    {
      Pause(visit, m.others);
      steps := m.others + [Count(visit, m.fate)];
      RunSnoc(Next, old(View()), m.others, Count(visit, m.fate));
      var running := Lookup(keys, Key(ip)).Occupied(now);
      count, failed := Incr(Key(ip), m.fate);
      if m.fate.Applied() && !running { starts := starts + [now]; }
      visits := visits[visit := if failed then Visit(now, 0, 0, FailedOpen)
                                else Visit(now, |starts| - 1, count, if count == 1 then Expiring else Deciding)];
    }

    /** The first request of a window gives the counter its minute. */
    method StartWindow(visit: nat, m: Moment) returns (ghost steps: seq<Step>)
      requires visit in visits && visits[visit].phase.Expiring? && LeavesAlone(m.others, visit)
      modifies this
      ensures View() == Run(Next, old(View()), steps) && steps == m.others + [Proceed(visit, m.fate)]
      ensures visit in visits && visits[visit] == old(visits[visit]).(phase := Deciding)
      ensures var slot := Lookup(keys, "ratelimit:" + ip);
              m.fate.Applied() && slot.Occupied(now) ==> slot.deadline == Until(now + 60_000)
      ensures forall k | k != Key(ip) :: Lookup(keys, k) == Lookup(old(keys), k)
    {
      Pause(visit, m.others);
      steps := m.others + [Proceed(visit, m.fate)];
      RunSnoc(Next, old(View()), m.others, Proceed(visit, m.fate));
      SetExpiry(Key(ip), MINUTE, m.fate);
      visits := visits[visit := visits[visit].(phase := Deciding)];
    }

    method Decide(visit: nat, count: int, m: Moment) returns (verdict: Verdict, ghost steps: seq<Step>)
      requires visit in visits && visits[visit].phase.Deciding? && visits[visit].count == count &&
               LeavesAlone(m.others, visit)
      modifies this
      ensures View() == Run(Next, old(View()), steps) && steps == m.others + [Proceed(visit, m.fate)]
      ensures visit in visits && visits[visit].phase == if verdict.PassedOn? then Admitted(now) else Rejected
      ensures visits[visit].count == old(visits[visit].count) && verdict.PassedOn? == (count <= limit)
      ensures forall k | k != Key(ip) :: Lookup(keys, k) == Lookup(old(keys), k)
    {
      Pause(visit, m.others);
      steps := m.others + [Proceed(visit, m.fate)];
      RunSnoc(Next, old(View()), m.others, Proceed(visit, m.fate));
      verdict := if count > limit then TooManyRequests else PassedOn;
      visits := visits[visit := visits[visit].(phase := if count > limit then Rejected else Admitted(now))];
    }
  }
}
