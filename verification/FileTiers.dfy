/** Storage tiers: files enter as standard through the upload flow, and lifecycle sweeps move old ones on. Sweeps may
    overlap each other and everything else; each first lists its files and then moves them one by one. */
module FileTiers {
  import opened Prelude
  import opened Runs

  const DAY: int := 86400 // seconds

  datatype Tier = Standard | StandardIA | Glacier | Other(name: string)

  datatype Status = Pending | Active

  datatype File = File(company: string, uploadedBy: string, name: string, s3Key: string, size: int, status: Status,
                       tier: Tier, createdAt: int, deleted: bool)

  /** A sweep on its way: the ids it has listed and not yet handled, and its count of migrated files. */
  datatype Sweep = Sweep(company: string, target: Tier, worklist: seq<string>, migrated: nat)

  /** confirms holds the confirmations on their way: each has found its file pending. */
  datatype World = World(now: int, files: map<string, File>, sweeps: map<nat, Sweep>, confirms: map<nat, string>)

  /** How one file fares in a sweep: whether its object could be copied, and the fate of the row's update. */
  datatype Handling = Handling(copied: bool, fate: Fate)

  datatype Step =
    | Upload(id: string, company: string, uploadedBy: string, name: string, size: int, fate: Fate)
    | FindPending(confirm: nat, id: string, company: string)
    | Activate(confirm: nat, size: int, fate: Fate)
    | Delete(id: string, company: string)
    | List(sweep: nat, company: string, target: Tier, order: seq<string>)
    | Move(sweep: nat, handling: Handling)
    | Abandon(sweep: nat)
    | Tick(amount: nat)

  function Start(now: int): World { World(now, map[], map[], map[]) }

  // ---- the policy ----

  /** The tier that files are moved from to reach the target. */
  function Source(target: Tier): Tier { if target.Glacier? then StandardIA else Standard }

  /** How old a file must have grown to leave its tier: 180 days, or two years. */
  function AfterAge(source: Tier): int { if source.StandardIA? then 730 * DAY else 180 * DAY }

  predicate Due(f: File, company: string, target: Tier, now: int)
  {
    && f.company == company && !f.deleted && f.status.Active? && f.tier == Source(target)
    && f.createdAt < now - AfterAge(Source(target))
  }

  /** The tier an age in seconds calls for. */
  function TierFor(age: int): Tier
  {
    if age > 63_072_000 then Glacier else if age > 15_552_000 then StandardIA else Standard
  }

  // ---- steps ----

  predicate NoDuplicates(s: seq<string>) { forall i, j | 0 <= i < j < |s| :: s[i] != s[j] }

  /** The order in which the database returns the due files is its own. */
  predicate ListsDue(order: seq<string>, files: map<string, File>, company: string, target: Tier, now: int)
  {
    && NoDuplicates(order)
    && (forall id | id in order :: id in files && Due(files[id], company, target, now))
    && (forall id | id in files && Due(files[id], company, target, now) :: id in order)
  }

  function NewFile(s: Step, now: int): File
    requires s.Upload?
  {
    File(s.company, s.uploadedBy, s.name, s.company + "/" + s.id + "/" + s.name, s.size, Pending, Standard, now, false)
  }

  predicate Confirmable(w: World, id: string, company: string)
  {
    id in w.files && w.files[id].company == company && !w.files[id].deleted && w.files[id].status.Pending?
  }

  /** The row is active, whatever it is by now, and has the size if that is positive; a deleted row is left alone. */
  function Activated(files: map<string, File>, id: string, size: int): map<string, File>
  {
    if id in files && !files[id].deleted
    then files[id := files[id].(status := Active, size := if size > 0 then size else files[id].size)]
    else files
  }

  /** The row's tier, whatever it is by now; updating a deleted or missing row changes nothing and is not an error. */
  function Retiered(files: map<string, File>, id: string, target: Tier, h: Handling): map<string, File>
  {
    if h.copied && h.fate.Applied() && id in files && !files[id].deleted
    then files[id := files[id].(tier := target)]
    else files
  }

  function Handled(p: Sweep, h: Handling): Sweep
    requires p.worklist != []
  {
    p.(worklist := p.worklist[1..], migrated := p.migrated + if h.copied && h.fate.Answered? then 1 else 0)
  }

  function Next(w: World, s: Step): World
  {
    match s
    case Upload(id, company, uploadedBy, name, _, fate) =>
      if company == "" || uploadedBy == "" || name == "" || id in w.files || !fate.Applied() then w
      else w.(files := w.files[id := NewFile(s, w.now)])
    case FindPending(c, id, company) =>
      if c in w.confirms || !Confirmable(w, id, company) then w else w.(confirms := w.confirms[c := id])
    case Activate(c, size, fate) =>
      if c !in w.confirms then w
      else w.(files := if fate.Applied() then Activated(w.files, w.confirms[c], size) else w.files,
              confirms := w.confirms - {c})
    case Delete(id, company) =>
      if id in w.files && w.files[id].company == company
      then w.(files := w.files[id := w.files[id].(deleted := true)])
      else w
    case List(x, company, target, order) =>
      if x in w.sweeps || !ListsDue(order, w.files, company, target, w.now) then w
      else w.(sweeps := w.sweeps[x := Sweep(company, target, order, 0)])
    case Move(x, h) =>
      if x !in w.sweeps || w.sweeps[x].worklist == [] then w
      else w.(files := Retiered(w.files, w.sweeps[x].worklist[0], w.sweeps[x].target, h),
              sweeps := w.sweeps[x := Handled(w.sweeps[x], h)])
    case Abandon(x) => if x in w.sweeps then w.(sweeps := w.sweeps[x := w.sweeps[x].(worklist := [])]) else w
    case Tick(amount) => w.(now := w.now + amount)
  }

  // ---- no file is in a tier it is too young for ----

  /** 180 days are 15552000 seconds, and 730 days 63072000. */
  predicate OldEnough(f: File, now: int)
  {
    && (!f.tier.Standard? ==> f.createdAt < now - 15_552_000)
    && (f.tier.Glacier? ==> f.createdAt < now - 63_072_000)
  }

  predicate ListedWhenDue(w: World, p: Sweep, id: string)
  {
    id in w.files && w.files[id].createdAt < w.now - AfterAge(Source(p.target))
  }

  ghost predicate AgesAgree(w: World)
  {
    && (forall id | id in w.files :: OldEnough(w.files[id], w.now))
    && (forall x, id | x in w.sweeps && id in w.sweeps[x].worklist :: ListedWhenDue(w, w.sweeps[x], id))
  }

  lemma MoveKeepsAges(w: World, x: nat, h: Handling)
    requires AgesAgree(w) && x in w.sweeps && w.sweeps[x].worklist != []
    ensures AgesAgree(Next(w, Move(x, h)))
  {
    var w', p := Next(w, Move(x, h)), w.sweeps[x];
    assert ListedWhenDue(w, p, p.worklist[0]);
    forall y, id | y in w'.sweeps && id in w'.sweeps[y].worklist
      ensures ListedWhenDue(w', w'.sweeps[y], id)
    {
      assert id in w.sweeps[y].worklist && ListedWhenDue(w, w.sweeps[y], id);
    }
  }

  lemma NextKeepsAges(w: World, s: Step)
    requires AgesAgree(w)
    ensures AgesAgree(Next(w, s))
  {
    if s.Move? {
      if s.sweep in w.sweeps && w.sweeps[s.sweep].worklist != [] { MoveKeepsAges(w, s.sweep, s.handling); }
    } else {
      var w' := Next(w, s);
      forall y, id | y in w'.sweeps && id in w'.sweeps[y].worklist
        ensures ListedWhenDue(w', w'.sweeps[y], id)
      {
        if y in w.sweeps { assert ListedWhenDue(w, w.sweeps[y], id); }
      }
    }
  }

  lemma {:induction false} RunKeepsAges(now: int, steps: seq<Step>)
    ensures AgesAgree(Run(Next, Start(now), steps))
  {
    if steps != [] {
      RunKeepsAges(now, steps[..|steps| - 1]);
      NextKeepsAges(Run(Next, Start(now), steps[..|steps| - 1]), steps[|steps| - 1]);
    }
  }

  /** In every reachable state, however sweeps overlap, fail and whatever they target: a file that has left the standard
      tier is more than 180 days old, and one in glacier more than 730. */
  lemma NoFileIsTooYoungForItsTier(now: int, steps: seq<Step>, id: string)
    requires id in Run(Next, Start(now), steps).files
    ensures var w := Run(Next, Start(now), steps); OldEnough(w.files[id], w.now)
  {
    RunKeepsAges(now, steps);
  }

  // ---- tiers only advance ----

  predicate Advances(before: Tier, after: Tier)
  {
    before == after || (before.Standard? && after.StandardIA?) || (before.StandardIA? && after.Glacier?)
  }

  predicate KnownTarget(w: World, s: Step) { s.List? ==> s.target in {StandardIA, Glacier} }

  /** No two sweeps from the standard tier of one company overlap. */
  predicate OneStandardSweep(w: World, s: Step)
  {
    s.List? && Source(s.target).Standard? ==>
      forall y | y in w.sweeps && w.sweeps[y].company == s.company && Source(w.sweeps[y].target).Standard? ::
        w.sweeps[y].worklist == []
  }

  ghost predicate Separate(w: World, s: Step) { KnownTarget(w, s) && OneStandardSweep(w, s) }

  predicate KnownTier(t: Tier) { !t.Other? }

  /** The files a sweep still has to handle are where it found them, or already where it moves them to. */
  predicate WorkAgrees(w: World, p: Sweep, id: string)
  {
    && id in w.files && w.files[id].company == p.company
    && (p.target.StandardIA? ==> w.files[id].tier.Standard?)
    && (p.target.Glacier? ==> w.files[id].tier.StandardIA? || w.files[id].tier.Glacier?)
  }

  ghost predicate SweepsAgree(w: World)
  {
    && (forall x | x in w.sweeps :: w.sweeps[x].target in {StandardIA, Glacier} && NoDuplicates(w.sweeps[x].worklist))
    && (forall x, id | x in w.sweeps && id in w.sweeps[x].worklist :: WorkAgrees(w, w.sweeps[x], id))
    && (forall x, y | x in w.sweeps && y in w.sweeps && x != y && w.sweeps[x].company == w.sweeps[y].company
                      && w.sweeps[x].target.StandardIA? && w.sweeps[y].target.StandardIA? ::
          w.sweeps[x].worklist == [] || w.sweeps[y].worklist == [])
    && (forall id | id in w.files :: KnownTier(w.files[id].tier))
  }

  lemma MoveKeepsWork(w: World, x: nat, h: Handling, y: nat, id: string)
    requires SweepsAgree(w) && x in w.sweeps && w.sweeps[x].worklist != []
    requires var w' := Next(w, Move(x, h)); y in w'.sweeps && id in w'.sweeps[y].worklist
    ensures WorkAgrees(Next(w, Move(x, h)), Next(w, Move(x, h)).sweeps[y], id)
  {
    var p := w.sweeps[x];
    assert id in w.sweeps[y].worklist && WorkAgrees(w, w.sweeps[y], id) && WorkAgrees(w, p, p.worklist[0]);
    if y == x {
      var k :| 0 <= k < |p.worklist[1..]| && p.worklist[1..][k] == id;
      assert p.worklist[0] != p.worklist[k + 1];
    }
  }

  lemma MoveKeepsSweeps(w: World, x: nat, h: Handling)
    requires SweepsAgree(w) && x in w.sweeps && w.sweeps[x].worklist != []
    ensures SweepsAgree(Next(w, Move(x, h)))
  {
    var w', p := Next(w, Move(x, h)), w.sweeps[x];
    forall y, id | y in w'.sweeps && id in w'.sweeps[y].worklist
      ensures WorkAgrees(w', w'.sweeps[y], id)
    {
      MoveKeepsWork(w, x, h, y, id);
    }
    assert p.worklist[0] in w.files ==> KnownTier(w.files[p.worklist[0]].tier);
  }

  lemma ListKeepsSweeps(w: World, s: Step)
    requires SweepsAgree(w) && s.List? && Separate(w, s)
    ensures SweepsAgree(Next(w, s))
  {
    var w' := Next(w, s);
    forall y, id | y in w'.sweeps && id in w'.sweeps[y].worklist
      ensures WorkAgrees(w', w'.sweeps[y], id)
    {
      if y in w.sweeps { assert WorkAgrees(w, w.sweeps[y], id); }
    }
  }

  /** Only a sweep's move changes a tier. */
  lemma OtherStepLeavesTiers(w: World, s: Step)
    requires !s.Move?
    ensures forall id | id in w.files ::
              id in Next(w, s).files && Next(w, s).files[id].company == w.files[id].company &&
                Next(w, s).files[id].tier == w.files[id].tier
    ensures forall id | id in Next(w, s).files && id !in w.files :: Next(w, s).files[id].tier.Standard?
  {
  }

  lemma OtherStepKeepsSweeps(w: World, s: Step)
    requires SweepsAgree(w) && !s.List? && !s.Move?
    ensures SweepsAgree(Next(w, s))
  {
    var w' := Next(w, s);
    OtherStepLeavesTiers(w, s);
    forall y, id | y in w'.sweeps && id in w'.sweeps[y].worklist
      ensures WorkAgrees(w', w'.sweeps[y], id)
    {
      assert WorkAgrees(w, w.sweeps[y], id);
    }
  }

  lemma NextKeepsSweeps(w: World, s: Step)
    requires SweepsAgree(w) && Separate(w, s)
    ensures SweepsAgree(Next(w, s))
  {
    if s.List? {
      ListKeepsSweeps(w, s);
    } else if s.Move? {
      if s.sweep in w.sweeps && w.sweeps[s.sweep].worklist != [] { MoveKeepsSweeps(w, s.sweep, s.handling); }
    } else {
      OtherStepKeepsSweeps(w, s);
    }
  }

  lemma {:induction false} RunKeepsSweeps(now: int, steps: seq<Step>)
    requires Always(Next, Start(now), steps, Separate)
    ensures SweepsAgree(Run(Next, Start(now), steps))
  {
    if steps != [] {
      RunKeepsSweeps(now, steps[..|steps| - 1]);
      NextKeepsSweeps(Run(Next, Start(now), steps[..|steps| - 1]), steps[|steps| - 1]);
    }
  }

  /** Tiers and targets are those of the policy, and what a sweep to glacier has listed has left standard. */
  ghost predicate TiersKnown(w: World)
  {
    && (forall id | id in w.files :: KnownTier(w.files[id].tier))
    && (forall x | x in w.sweeps :: w.sweeps[x].target in {StandardIA, Glacier})
    && (forall x, id | x in w.sweeps && id in w.sweeps[x].worklist :: ListedLate(w, w.sweeps[x], id))
  }

  predicate ListedLate(w: World, p: Sweep, id: string)
  {
    id in w.files && (p.target.Glacier? ==> !w.files[id].tier.Standard?)
  }

  lemma MoveKeepsTiersKnown(w: World, x: nat, h: Handling)
    requires TiersKnown(w) && x in w.sweeps && w.sweeps[x].worklist != []
    ensures TiersKnown(Next(w, Move(x, h)))
  {
    var w' := Next(w, Move(x, h));
    forall y, id | y in w'.sweeps && id in w'.sweeps[y].worklist
      ensures ListedLate(w', w'.sweeps[y], id)
    {
      assert id in w.sweeps[y].worklist && ListedLate(w, w.sweeps[y], id);
    }
  }

  lemma OtherStepKeepsTiersKnown(w: World, s: Step)
    requires TiersKnown(w) && KnownTarget(w, s) && !s.Move?
    ensures TiersKnown(Next(w, s))
  {
    var w' := Next(w, s);
    OtherStepLeavesTiers(w, s);
    forall y, id | y in w'.sweeps && id in w'.sweeps[y].worklist
      ensures ListedLate(w', w'.sweeps[y], id)
    {
      if y in w.sweeps { assert ListedLate(w, w.sweeps[y], id); }
    }
  }

  lemma {:induction false} TiersStayKnown(now: int, steps: seq<Step>)
    requires Always(Next, Start(now), steps, KnownTarget)
    ensures TiersKnown(Run(Next, Start(now), steps))
  {
    if steps != [] {
      var before, s := steps[..|steps| - 1], steps[|steps| - 1];
      var w := Run(Next, Start(now), before);
      TiersStayKnown(now, before);
      if s.Move? {
        if s.sweep in w.sweeps && w.sweeps[s.sweep].worklist != [] { MoveKeepsTiersKnown(w, s.sweep, s.handling); }
      } else {
        OtherStepKeepsTiersKnown(w, s);
      }
    }
  }

  /** The update of a sweep to standard_ia reaches a file that is in glacier by now. */
  predicate BringsBack(w: World, s: Step, id: string)
  {
    && s.Move? && s.handling.copied && s.handling.fate.Applied()
    && s.sweep in w.sweeps && w.sweeps[s.sweep].worklist != [] && w.sweeps[s.sweep].worklist[0] == id
    && w.sweeps[s.sweep].target.StandardIA? && id in w.files && !w.files[id].deleted && w.files[id].tier.Glacier?
  }

  /** On every run whose sweeps target standard_ia or glacier, with any overlaps and any failures: a step leaves a
      file's tier as it is or moves it to the next one if and only if it is not the update of a sweep to standard_ia
      that reaches a file in glacier. */
  lemma TierAdvancesIffNotBroughtBack(now: int, steps: seq<Step>, s: Step, id: string)
    requires Always(Next, Start(now), steps, KnownTarget)
    requires id in Run(Next, Start(now), steps).files
    ensures var w := Run(Next, Start(now), steps);
            var w' := Next(w, s);
            id in w'.files && (Advances(w.files[id].tier, w'.files[id].tier) <==> !BringsBack(w, s, id))
  {
    var w := Run(Next, Start(now), steps);
    TiersStayKnown(now, steps);
    if s.Move? {
      if s.sweep in w.sweeps && w.sweeps[s.sweep].worklist != [] {
        assert ListedLate(w, w.sweeps[s.sweep], w.sweeps[s.sweep].worklist[0]);
      }
    } else {
      OtherStepLeavesTiers(w, s);
    }
  }

  lemma {:induction false} SeparateTargetsAreKnown(now: int, steps: seq<Step>)
    requires Always(Next, Start(now), steps, Separate)
    ensures Always(Next, Start(now), steps, KnownTarget)
  {
    if steps != [] { SeparateTargetsAreKnown(now, steps[..|steps| - 1]); }
  }

  /** If no two sweeps from the standard tier of one company overlap, that never happens: each step leaves each file's
      tier as it is or moves it to the next one. */
  lemma TiersOnlyAdvance(now: int, steps: seq<Step>, s: Step, id: string)
    requires Always(Next, Start(now), steps + [s], Separate)
    requires id in Run(Next, Start(now), steps).files
    ensures var w, w' := Run(Next, Start(now), steps), Run(Next, Start(now), steps + [s]);
            id in w'.files && Advances(w.files[id].tier, w'.files[id].tier)
  {
    var w := Run(Next, Start(now), steps);
    RunSnoc(Next, Start(now), steps, s);
    AlwaysSnoc(Next, Start(now), steps, s, Separate);
    RunKeepsSweeps(now, steps);
    SeparateTargetsAreKnown(now, steps);
    TierAdvancesIffNotBroughtBack(now, steps, s, id);
    assert BringsBack(w, s, id) ==> WorkAgrees(w, w.sweeps[s.sweep], id);
  }

  predicate OnlyFile(w: World, id: string)
  {
    w.files.Keys == {id} && w.sweeps == map[] && !w.files[id].deleted
  }

  /** One file is uploaded and confirmed, and time passes. */
  function Aged(age: nat): seq<Step>
  {
    [Upload("f", "c", "u", "n", 1, Answered)] + [FindPending(0, "f", "c")] + [Activate(0, 1, Answered)] + [Tick(age)]
  }

  lemma AgedFile(age: nat) returns (w: World)
    ensures w == Run(Next, Start(0), Aged(age)) && OnlyFile(w, "f") && w.now == age
    ensures var f := w.files["f"]; f.company == "c" && f.status.Active? && f.tier.Standard? && f.createdAt == 0
  {
    var a, b, c := Upload("f", "c", "u", "n", 1, Answered), FindPending(0, "f", "c"), Activate(0, 1, Answered);
    RunOne(Next, Start(0), a);
    RunSnoc(Next, Start(0), [a], b);
    RunSnoc(Next, Start(0), [a] + [b], c);
    RunSnoc(Next, Start(0), [a] + [b] + [c], Tick(age));
    w := Run(Next, Start(0), Aged(age));
  }

  predicate InTier(w: World, id: string, tier: Tier) { id in w.files && w.files[id].tier == tier }

  function Overlapping(company: string, id: string): seq<Step>
  {
    var ok := Handling(true, Answered);
    [List(0, company, StandardIA, [id])] + [List(1, company, StandardIA, [id])] + [Move(0, ok)]
    + [List(2, company, Glacier, [id])] + [Move(2, ok)] + [Move(1, ok)]
  }

  /** The non-overlap is needed: on a run from the start, two sweeps to standard_ia around one to glacier bring a file
      more than two years old back from glacier. */
  lemma OverlappingSweepsMoveBack()
    ensures var steps := Aged(731 * DAY) + Overlapping("c", "f");
            && |steps| == 10 && InTier(Run(Next, Start(0), steps[..9]), "f", Glacier)
            && InTier(Run(Next, Start(0), steps), "f", StandardIA)
  {
    var w := AgedFile(731 * DAY);
    var steps := Overlapping("c", "f");
    OverlapMovesBack(w, "f");
    RunConcat(Next, Start(0), Aged(731 * DAY), steps);
    RunConcat(Next, Start(0), Aged(731 * DAY), steps[..5]);
    assert (Aged(731 * DAY) + steps)[..9] == Aged(731 * DAY) + steps[..5];
  }

  lemma OverlapMovesBack(w: World, id: string)
    requires OnlyFile(w, id) && Due(w.files[id], w.files[id].company, StandardIA, w.now)
    requires w.files[id].createdAt < w.now - 730 * DAY
    ensures var steps := Overlapping(w.files[id].company, id);
            && InTier(Run(Next, w, steps[..5]), id, Glacier)
            && InTier(Run(Next, w, steps), id, StandardIA)
  {
    var c, ok := w.files[id].company, Handling(true, Answered);
    var a, b, g := List(0, c, StandardIA, [id]), List(1, c, StandardIA, [id]), List(2, c, Glacier, [id]);
    var w1 := w.(sweeps := map[0 := Sweep(c, StandardIA, [id], 0)]);
    assert Next(w, a) == w1;
    var w2 := w1.(sweeps := w1.sweeps[1 := Sweep(c, StandardIA, [id], 0)]);
    assert Next(w1, b) == w2;
    var w3 := w2.(files := w.files[id := w.files[id].(tier := StandardIA)],
      sweeps := w2.sweeps[0 := Sweep(c, StandardIA, [], 1)]);
    assert [id][1..] == [];
    assert Next(w2, Move(0, ok)) == w3;
    var w4 := w3.(sweeps := w3.sweeps[2 := Sweep(c, Glacier, [id], 0)]);
    assert Next(w3, g) == w4;
    var w5 := Next(w4, Move(2, ok));
    var w6 := Next(w5, Move(1, ok));
    RunSix(Next, w, a, b, Move(0, ok), g, Move(2, ok), Move(1, ok));
    assert Overlapping(c, id)[..5] == [a] + [b] + [Move(0, ok)] + [g] + [Move(2, ok)];
  }

  lemma RunSix(next: (World, Step) -> World, w: World, a: Step, b: Step, c: Step, d: Step, e: Step, f: Step)
    ensures Run(next, w, [a] + [b] + [c] + [d] + [e]) == next(next(next(next(next(w, a), b), c), d), e)
    ensures Run(next, w, [a] + [b] + [c] + [d] + [e] + [f]) == next(next(next(next(next(next(w, a), b), c), d), e), f)
  {
    RunOne(next, w, a);
    RunSnoc(next, w, [a], b);
    RunSnoc(next, w, [a] + [b], c);
    RunSnoc(next, w, [a] + [b] + [c], d);
    RunSnoc(next, w, [a] + [b] + [c] + [d], e);
    RunSnoc(next, w, [a] + [b] + [c] + [d] + [e], f);
  }

  // ---- what one sweep does ----

  function Moves(x: nat, handlings: seq<Handling>): (steps: seq<Step>)
    ensures |steps| == |handlings| && forall k | 0 <= k < |steps| :: steps[k] == Move(x, handlings[k])
  {
    seq(|handlings|, k requires 0 <= k < |handlings| => Move(x, handlings[k]))
  }

  /** The number of handlings the sweep counts as migrated. */
  function Counted(handlings: seq<Handling>): nat
  {
    if handlings == [] then 0
    else
      var h := handlings[|handlings| - 1];
      Counted(handlings[..|handlings| - 1]) + if h.copied && h.fate.Answered? then 1 else 0
  }

  /** The number of handlings that moved their file. */
  function Landed(handlings: seq<Handling>): nat
  {
    if handlings == [] then 0
    else
      var h := handlings[|handlings| - 1];
      Landed(handlings[..|handlings| - 1]) + if h.copied && h.fate.Applied() then 1 else 0
  }

  /** The count a sweep returns is never more than what it moved, and is that exactly if and only if no update landed
      while reporting a failure. */
  lemma {:induction false} CountIsExactIffRepliesAreTrue(handlings: seq<Handling>)
    ensures Counted(handlings) <= Landed(handlings)
    ensures Counted(handlings) == Landed(handlings) <==>
            forall h | h in handlings :: !(h.copied && h.fate == Lost(true))
  {
    if handlings != [] {
      var n := |handlings| - 1;
      CountIsExactIffRepliesAreTrue(handlings[..n]);
      assert handlings == handlings[..n] + [handlings[n]];
    }
  }

  /** The files after the first n ids of an order have been handled. */
  predicate HandledSoFar(files: map<string, File>, files': map<string, File>, target: Tier, order: seq<string>,
                         handlings: seq<Handling>, n: nat)
    requires n <= |order| == |handlings|
  {
    && files'.Keys == files.Keys
    && (forall k | 0 <= k < n && order[k] in files ::
          files'[order[k]]
          == if handlings[k].copied && handlings[k].fate.Applied() then files[order[k]].(tier := target)
                              else files[order[k]])
    && (forall id | id in files && id !in order[..n] :: files'[id] == files[id])
  }

  /** The world after the sweep's first n handlings. */
  predicate SweptSoFar(w: World, w': World, x: nat, handlings: seq<Handling>, n: nat)
    requires x in w.sweeps && n <= |handlings| == |w.sweeps[x].worklist|
  {
    && w'.now == w.now && w'.sweeps == w.sweeps[x := SweepAt(w.sweeps[x], handlings, n)]
    && HandledSoFar(w.files, w'.files, w.sweeps[x].target, w.sweeps[x].worklist, handlings, n)
  }

  ghost predicate Sweepable(w: World, x: nat)
  {
    && x in w.sweeps && NoDuplicates(w.sweeps[x].worklist)
    && forall id | id in w.sweeps[x].worklist :: id in w.files && !w.files[id].deleted
  }

  /** The sweep after its first n handlings. */
  function SweepAt(p: Sweep, handlings: seq<Handling>, n: nat): Sweep
    requires n <= |handlings| == |p.worklist|
  {
    p.(worklist := p.worklist[n..], migrated := p.migrated + Counted(handlings[..n]))
  }

  lemma OneMoreCounted(p: Sweep, handlings: seq<Handling>, n: nat)
    requires n < |handlings| == |p.worklist|
    ensures Handled(SweepAt(p, handlings, n), handlings[n]) == SweepAt(p, handlings, n + 1)
    ensures SweepAt(p, handlings, n).worklist[0] == p.worklist[n]
  {
    assert p.worklist[n..][1..] == p.worklist[n + 1..];
    assert handlings[..n + 1][..n] == handlings[..n];
  }

  lemma OneMoreMove(w: World, before: World, after: World, x: nat, handlings: seq<Handling>, n: nat)
    requires Sweepable(w, x) && n < |handlings| == |w.sweeps[x].worklist| && SweptSoFar(w, before, x, handlings, n)
    requires after.now == before.now
    requires after.files == Retiered(before.files, w.sweeps[x].worklist[n], w.sweeps[x].target, handlings[n])
    requires after.sweeps == before.sweeps[x := SweepAt(w.sweeps[x], handlings, n + 1)]
    ensures SweptSoFar(w, after, x, handlings, n + 1)
  {
    OneMoreHandled(w.files, before.files, w.sweeps[x].target, w.sweeps[x].worklist, handlings, n);
  }

  lemma MoveHandlesOneMore(w: World, before: World, x: nat, handlings: seq<Handling>, n: nat)
    requires Sweepable(w, x) && n < |handlings| == |w.sweeps[x].worklist| && SweptSoFar(w, before, x, handlings, n)
    ensures SweptSoFar(w, Next(before, Move(x, handlings[n])), x, handlings, n + 1)
  {
    OneMoreCounted(w.sweeps[x], handlings, n);
    assert before.sweeps[x] == SweepAt(w.sweeps[x], handlings, n) && before.sweeps[x].worklist != [];
    OneMoreMove(w, before, Next(before, Move(x, handlings[n])), x, handlings, n);
  }

  /** The state after the sweep's first n moves, move by move. */
  function Swept(next: (World, Step) -> World, w: World, x: nat, handlings: seq<Handling>, n: nat): World
    requires n <= |handlings|
  {
    if n == 0 then w else next(Swept(next, w, x, handlings, n - 1), Move(x, handlings[n - 1]))
  }

  lemma {:induction false} MovesSweep(next: (World, Step) -> World, w: World, x: nat, handlings: seq<Handling>, n: nat)
    requires n <= |handlings|
    ensures Run(next, w, Moves(x, handlings)[..n]) == Swept(next, w, x, handlings, n)
  {
    if n > 0 {
      MovesSweep(next, w, x, handlings, n - 1);
      RunSnoc(next, w, Moves(x, handlings)[..n - 1], Move(x, handlings[n - 1]));
      assert Moves(x, handlings)[..n] == Moves(x, handlings)[..n - 1] + [Move(x, handlings[n - 1])];
    }
  }

  lemma {:induction false} SweepMoves(w: World, x: nat, handlings: seq<Handling>, n: nat)
    requires Sweepable(w, x) && n <= |handlings| == |w.sweeps[x].worklist|
    ensures SweptSoFar(w, Swept(Next, w, x, handlings, n), x, handlings, n)
  {
    if n == 0 {
      NothingSweptYet(w, x, handlings);
    } else {
      SweepMoves(w, x, handlings, n - 1);
      MoveHandlesOneMore(w, Swept(Next, w, x, handlings, n - 1), x, handlings, n - 1);
    }
  }

  lemma SweepSoFar(w: World, x: nat, handlings: seq<Handling>, n: nat)
    requires Sweepable(w, x) && n <= |handlings| == |w.sweeps[x].worklist|
    ensures SweptSoFar(w, Run(Next, w, Moves(x, handlings)[..n]), x, handlings, n)
  {
    SweepMoves(w, x, handlings, n);
    MovesSweep(Next, w, x, handlings, n);
  }

  lemma NothingSweptYet(w: World, x: nat, handlings: seq<Handling>)
    requires Sweepable(w, x) && |handlings| == |w.sweeps[x].worklist|
    ensures SweptSoFar(w, w, x, handlings, 0)
  {
    assert handlings[..0] == [] && w.sweeps[x].worklist[0..] == w.sweeps[x].worklist;
  }

  lemma OneMoreHandled(files: map<string, File>, sofar: map<string, File>, target: Tier, order: seq<string>,
                       handlings: seq<Handling>, n: nat)
    requires n < |order| == |handlings| && NoDuplicates(order)
    requires forall id | id in order :: id in files && !files[id].deleted
    requires HandledSoFar(files, sofar, target, order, handlings, n)
    ensures HandledSoFar(files, Retiered(sofar, order[n], target, handlings[n]), target, order, handlings, n + 1)
  {
    assert order[n] in order && order[n] !in order[..n];
    assert order[..n + 1] == order[..n] + [order[n]];
  }

  /** The ids whose handling landed, among the first n. */
  function MovedIds(order: seq<string>, handlings: seq<Handling>, n: nat): set<string>
    requires n <= |order| == |handlings|
  {
    if n == 0 then {}
    else
      var h := handlings[n - 1];
      MovedIds(order, handlings, n - 1) + if h.copied && h.fate.Applied() then {order[n - 1]} else {}
  }

  lemma {:induction false} MovedIdsLanded(order: seq<string>, handlings: seq<Handling>, n: nat, id: string)
    requires n <= |order| == |handlings|
    ensures id in MovedIds(order, handlings, n)
            <==> exists k :: 0 <= k < n && order[k] == id && handlings[k].copied && handlings[k].fate.Applied()
  {
    if n > 0 { MovedIdsLanded(order, handlings, n - 1, id); }
  }

  lemma OneMoreMovedId(order: seq<string>, handlings: seq<Handling>, n: nat)
    requires n < |order| == |handlings| && NoDuplicates(order)
    ensures |MovedIds(order, handlings, n + 1)|
            == |MovedIds(order, handlings, n)| + if handlings[n].copied && handlings[n].fate.Applied() then 1 else 0
  {
    MovedIdsLanded(order, handlings, n, order[n]);
  }

  lemma {:induction false} MovedIdsAreCounted(order: seq<string>, handlings: seq<Handling>, n: nat)
    requires n <= |order| == |handlings| && NoDuplicates(order)
    ensures |MovedIds(order, handlings, n)| == Landed(handlings[..n])
  {
    if n > 0 {
      MovedIdsAreCounted(order, handlings, n - 1);
      OneMoreMovedId(order, handlings, n - 1);
      assert handlings[..n][..n - 1] == handlings[..n - 1];
    }
  }

  /** The files whose tier is not what it was. */
  function MovedFiles(files: map<string, File>, files': map<string, File>): set<string>
  {
    set id | id in files && id in files' && files[id].tier != files'[id].tier
  }

  lemma MovedFilesAreMovedIds(files: map<string, File>, files': map<string, File>, target: Tier, order: seq<string>,
                              handlings: seq<Handling>)
    requires |order| == |handlings| && NoDuplicates(order) && target != Source(target)
    requires forall id | id in order :: id in files && files[id].tier == Source(target)
    requires HandledSoFar(files, files', target, order, handlings, |order|)
    ensures MovedFiles(files, files') == MovedIds(order, handlings, |order|)
  {
    assert order[..|order|] == order;
    forall id
      ensures id in MovedFiles(files, files') <==> id in MovedIds(order, handlings, |order|)
    {
      MovedIdsLanded(order, handlings, |order|, id);
      if id in order {
        var k :| 0 <= k < |order| && order[k] == id;
        assert files'[order[k]].tier == if handlings[k].copied && handlings[k].fate.Applied() then target
               else Source(target);
      }
    }
  }

  /** The count of an undisturbed sweep with any failures is at most the number of files moved, and equal to it if and
      only if no update landed while reporting a failure. */
  lemma SweepCountsWhatItMovedIffRepliesAreTrue(w: World, x: nat, company: string, target: Tier, order: seq<string>,
                                                handlings: seq<Handling>)
    requires x !in w.sweeps && ListsDue(order, w.files, company, target, w.now) && |handlings| == |order|
    requires target in {StandardIA, Glacier}
    ensures var w' := Run(Next, w, [List(x, company, target, order)] + Moves(x, handlings));
            && x in w'.sweeps && w'.sweeps[x].worklist == []
            && w'.sweeps[x].migrated <= |MovedFiles(w.files, w'.files)|
            && (w'.sweeps[x].migrated == |MovedFiles(w.files, w'.files)| <==>
                forall h | h in handlings :: !(h.copied && h.fate == Lost(true)))
  {
    var first := List(x, company, target, order);
    RunOne(Next, w, first);
    RunConcat(Next, w, [first], Moves(x, handlings));
    MovesCountWhatTheyMove(Next(w, first), x, company, target, order, handlings);
    CountIsExactIffRepliesAreTrue(handlings);
  }

  lemma WholeSweep(w: World, x: nat, handlings: seq<Handling>)
    requires Sweepable(w, x) && |handlings| == |w.sweeps[x].worklist|
    ensures SweptSoFar(w, Run(Next, w, Moves(x, handlings)), x, handlings, |handlings|)
  {
    SweepSoFar(w, x, handlings, |handlings|);
    assert Moves(x, handlings)[..|handlings|] == Moves(x, handlings);
  }

  lemma MovesCountWhatTheyMove(w: World, x: nat, company: string, target: Tier, order: seq<string>,
                               handlings: seq<Handling>)
    requires x in w.sweeps && w.sweeps[x] == Sweep(company, target, order, 0) &&
             ListsDue(order, w.files, company, target, w.now)
    requires |handlings| == |order| && target in {StandardIA, Glacier}
    ensures var w' := Run(Next, w, Moves(x, handlings));
            && x in w'.sweeps && w'.sweeps[x].worklist == [] && w'.sweeps[x].migrated == Counted(handlings)
            && |MovedFiles(w.files, w'.files)| == Landed(handlings)
  {
    WholeSweep(w, x, handlings);
    SweptCounts(w, Run(Next, w, Moves(x, handlings)), x, target, order, handlings);
  }

  lemma SweptCounts(w: World, w': World, x: nat, target: Tier, order: seq<string>, handlings: seq<Handling>)
    requires x in w.sweeps && w.sweeps[x].worklist == order && w.sweeps[x].target == target && w.sweeps[x].migrated == 0
    requires |handlings| == |order| && target != Source(target) && NoDuplicates(order)
    requires forall id | id in order :: id in w.files && w.files[id].tier == Source(target)
    requires SweptSoFar(w, w', x, handlings, |handlings|)
    ensures x in w'.sweeps && w'.sweeps[x].worklist == [] && w'.sweeps[x].migrated == Counted(handlings)
    ensures |MovedFiles(w.files, w'.files)| == Landed(handlings)
  {
    assert handlings[..|handlings|] == handlings;
    MovedFilesAreMovedIds(w.files, w'.files, target, order, handlings);
    MovedIdsAreCounted(order, handlings, |order|);
  }

  // ---- what a sweep counts, whatever happens around it ----

  /** The step handles the next file of sweep x. */
  predicate Handles(w: World, s: Step, x: nat)
  {
    s.Move? && s.sweep == x && x in w.sweeps && w.sweeps[x].worklist != []
  }

  /** The step of sweep x changes its file's tier. */
  predicate MovesFile(w: World, s: Step, x: nat)
  {
    Handles(w, s, x) && w.sweeps[x].worklist[0] in MovedFiles(w.files, Next(w, s).files)
  }

  /** The step changes the tier while reporting a failure. */
  predicate MovesUncounted(w: World, s: Step, x: nat)
  {
    MovesFile(w, s, x) && !s.handling.fate.Answered?
  }

  /** The step is counted and changes no tier. */
  predicate CountsUnmoved(w: World, s: Step, x: nat)
  {
    Handles(w, s, x) && !MovesFile(w, s, x) && s.handling.copied && s.handling.fate.Answered?
  }

  ghost function Moving(x: nat): (World, Step) -> bool { (w, s) => MovesFile(w, s, x) }

  ghost function MovingUncounted(x: nat): (World, Step) -> bool { (w, s) => MovesUncounted(w, s, x) }

  ghost function CountingUnmoved(x: nat): (World, Step) -> bool { (w, s) => CountsUnmoved(w, s, x) }

  lemma MoveIsCounted(w: World, s: Step, x: nat)
    requires x in w.sweeps
    ensures var w' := Next(w, s);
            x in w'.sweeps && w'.sweeps[x].migrated + (if MovesUncounted(w, s, x) then 1 else 0)
                              == w.sweeps[x].migrated + (if MovesFile(w, s, x) then 1 else 0)
                                + (if CountsUnmoved(w, s, x) then 1 else 0)
  {
  }

  /** Over any steps from any state, whatever else they do: a sweep's count and the files it moved while an update
      reported a failure make up the files it moved and the ones it counted without moving them. */
  lemma {:induction false} SweepCountsAddUp(w: World, steps: seq<Step>, x: nat)
    requires x in w.sweeps
    ensures var w' := Run(Next, w, steps);
            && x in w'.sweeps
            && w'.sweeps[x].migrated + Count(Next, w, steps, MovingUncounted(x))
               == w.sweeps[x].migrated + Count(Next, w, steps, Moving(x)) + Count(Next, w, steps, CountingUnmoved(x))
  {
    if steps != [] {
      var before := steps[..|steps| - 1];
      SweepCountsAddUp(w, before, x);
      MoveIsCounted(Run(Next, w, before), steps[|steps| - 1], x);
    }
  }

  ghost function HandlingOf(x: nat): (World, Step) -> bool { (w, s) => Handles(w, s, x) }

  /** Every step of a sweep handles another entry of its list: what is left is the list short of as many entries as were
      handled, or nothing if the sweep was abandoned. */
  lemma {:induction false} SweepHandlesItsListInOrder(w: World, steps: seq<Step>, x: nat)
    requires x in w.sweeps
    ensures var k, order, w' := Count(Next, w, steps, HandlingOf(x)), w.sweeps[x].worklist, Run(Next, w, steps);
            x in w'.sweeps && (w'.sweeps[x].worklist == [] || (k <= |order| && w'.sweeps[x].worklist == order[k..]))
  {
    if steps != [] {
      var before := steps[..|steps| - 1];
      SweepHandlesItsListInOrder(w, before, x);
      StepShortensTheList(Run(Next, w, before), steps[|steps| - 1], x);
    }
  }

  lemma StepShortensTheList(w: World, s: Step, x: nat)
    requires x in w.sweeps
    ensures x in Next(w, s).sweeps
    ensures var worklist := Next(w, s).sweeps[x].worklist;
            if Handles(w, s, x) then worklist == w.sweeps[x].worklist[1..]
            else worklist == [] || worklist == w.sweeps[x].worklist
  {
  }

  /** In every reachable state: a step is counted without moving its file if and only if the file was deleted meanwhile,
      or is already in the target tier. */
  lemma CountsUnmovedIff(now: int, steps: seq<Step>, x: nat, h: Handling)
    requires var w := Run(Next, Start(now), steps);
             Handles(w, Move(x, h), x) && h.copied && h.fate.Answered?
    ensures var w := Run(Next, Start(now), steps);
            var id := w.sweeps[x].worklist[0];
            id in w.files &&
              (CountsUnmoved(w, Move(x, h), x) <==> w.files[id].deleted || w.files[id].tier == w.sweeps[x].target)
  {
    var w := Run(Next, Start(now), steps);
    RunKeepsAges(now, steps);
    assert ListedWhenDue(w, w.sweeps[x], w.sweeps[x].worklist[0]);
  }

  /** The step is counted though its file is deleted or in the target tier already. */
  predicate CountsIdly(w: World, s: Step, x: nat)
  {
    && Handles(w, s, x) && s.handling.copied && s.handling.fate.Answered?
    && var id := w.sweeps[x].worklist[0];
       id in w.files ==> w.files[id].deleted || w.files[id].tier == w.sweeps[x].target
  }

  /** The step's update of an undeleted file in another tier takes effect and its reply is lost. */
  predicate LandsUnreported(w: World, s: Step, x: nat)
  {
    && Handles(w, s, x) && s.handling.copied && s.handling.fate == Lost(true)
    && var id := w.sweeps[x].worklist[0];
       id in w.files && !w.files[id].deleted && w.files[id].tier != w.sweeps[x].target
  }

  ghost function CountingIdly(x: nat): (World, Step) -> bool { (w, s) => CountsIdly(w, s, x) }

  ghost function LandingUnreported(x: nat): (World, Step) -> bool { (w, s) => LandsUnreported(w, s, x) }

  lemma IdleAndUnreported(w: World, s: Step, x: nat)
    ensures CountsIdly(w, s, x) <==> CountsUnmoved(w, s, x)
    ensures LandsUnreported(w, s, x) <==> MovesUncounted(w, s, x)
  {
  }

  lemma {:induction false} IdleAndUnreportedCounts(w: World, steps: seq<Step>, x: nat)
    ensures Count(Next, w, steps, CountingIdly(x)) == Count(Next, w, steps, CountingUnmoved(x))
    ensures Count(Next, w, steps, LandingUnreported(x)) == Count(Next, w, steps, MovingUncounted(x))
  {
    if steps != [] {
      var before := steps[..|steps| - 1];
      IdleAndUnreportedCounts(w, before, x);
      IdleAndUnreported(Run(Next, w, before), steps[|steps| - 1], x);
    }
  }

  /** A sweep under any interference, however far it gets: its count is the number of files it moved if and only if it
      handled as many files with success that were deleted or in the target tier by then, as its updates of others took
      effect with their reply lost. */
  lemma SweepCountIsExactIff(w: World, x: nat, company: string, target: Tier, order: seq<string>, more: seq<Step>)
    requires x !in w.sweeps && ListsDue(order, w.files, company, target, w.now)
    ensures var listed := Next(w, List(x, company, target, order));
            var w' := Run(Next, listed, more);
            && x in w'.sweeps
            && (w'.sweeps[x].migrated == Count(Next, listed, more, Moving(x)) <==>
                Count(Next, listed, more, CountingIdly(x)) == Count(Next, listed, more, LandingUnreported(x)))
  {
    var listed := Next(w, List(x, company, target, order));
    SweepCountsAddUp(listed, more, x);
    IdleAndUnreportedCounts(listed, more, x);
  }

  /** No two sweeps from one tier of one company overlap. */
  predicate OneSweepPerTier(w: World, s: Step)
  {
    s.List? ==>
      forall y | y in w.sweeps && w.sweeps[y].company == s.company && Source(w.sweeps[y].target) == Source(s.target) ::
        w.sweeps[y].worklist == []
  }

  /** A file still to be handled is where its sweep found it. */
  predicate StillThere(w: World, p: Sweep, id: string)
  {
    id in w.files && w.files[id].company == p.company && w.files[id].tier == Source(p.target)
  }

  predicate Rivals(p: Sweep, q: Sweep) { p.company == q.company && Source(p.target) == Source(q.target) }

  ghost predicate WorkUndisturbed(w: World)
  {
    && (forall x | x in w.sweeps :: NoDuplicates(w.sweeps[x].worklist))
    && (forall x, id | x in w.sweeps && id in w.sweeps[x].worklist :: StillThere(w, w.sweeps[x], id))
    && (forall x, y | x in w.sweeps && y in w.sweeps && x != y && Rivals(w.sweeps[x], w.sweeps[y]) ::
          w.sweeps[x].worklist == [] || w.sweeps[y].worklist == [])
  }

  lemma MoveLeavesWork(w: World, x: nat, h: Handling, y: nat, id: string)
    requires WorkUndisturbed(w) && x in w.sweeps && w.sweeps[x].worklist != []
    requires var w' := Next(w, Move(x, h)); y in w'.sweeps && id in w'.sweeps[y].worklist
    ensures StillThere(Next(w, Move(x, h)), Next(w, Move(x, h)).sweeps[y], id)
  {
    var p := w.sweeps[x];
    assert id in w.sweeps[y].worklist && StillThere(w, w.sweeps[y], id) && StillThere(w, p, p.worklist[0]);
    if y == x {
      var k :| 0 <= k < |p.worklist[1..]| && p.worklist[1..][k] == id;
      assert p.worklist[0] != p.worklist[k + 1];
    } else {
      assert id == p.worklist[0] ==> Rivals(p, w.sweeps[y]);
    }
  }

  lemma MoveLeavesAllWork(w: World, x: nat, h: Handling)
    requires WorkUndisturbed(w) && x in w.sweeps && w.sweeps[x].worklist != []
    ensures WorkUndisturbed(Next(w, Move(x, h)))
  {
    var w' := Next(w, Move(x, h));
    forall y, id | y in w'.sweeps && id in w'.sweeps[y].worklist
      ensures StillThere(w', w'.sweeps[y], id)
    {
      MoveLeavesWork(w, x, h, y, id);
    }
  }

  lemma OtherStepLeavesEntry(w: World, s: Step, y: nat, id: string)
    requires WorkUndisturbed(w) && !s.Move?
    requires var w' := Next(w, s); y in w'.sweeps && id in w'.sweeps[y].worklist
    ensures StillThere(Next(w, s), Next(w, s).sweeps[y], id)
  {
    OtherStepLeavesTiers(w, s);
    if y in w.sweeps { assert id in w.sweeps[y].worklist && StillThere(w, w.sweeps[y], id); }
  }

  lemma OtherStepRepeatsNothing(w: World, s: Step)
    requires WorkUndisturbed(w) && !s.Move?
    ensures forall x | x in Next(w, s).sweeps :: NoDuplicates(Next(w, s).sweeps[x].worklist)
  {
  }

  lemma OtherStepAddsNoRival(w: World, s: Step)
    requires WorkUndisturbed(w) && OneSweepPerTier(w, s) && !s.Move?
    ensures var w' := Next(w, s);
            forall x, y | x in w'.sweeps && y in w'.sweeps && x != y && Rivals(w'.sweeps[x], w'.sweeps[y]) ::
              w'.sweeps[x].worklist == [] || w'.sweeps[y].worklist == []
  {
  }

  lemma OtherStepLeavesWork(w: World, s: Step)
    requires WorkUndisturbed(w) && OneSweepPerTier(w, s) && !s.Move?
    ensures WorkUndisturbed(Next(w, s))
  {
    var w' := Next(w, s);
    OtherStepRepeatsNothing(w, s);
    OtherStepAddsNoRival(w, s);
    forall y, id | y in w'.sweeps && id in w'.sweeps[y].worklist
      ensures StillThere(w', w'.sweeps[y], id)
    {
      OtherStepLeavesEntry(w, s, y, id);
    }
  }

  lemma NextLeavesWork(w: World, s: Step)
    requires WorkUndisturbed(w) && OneSweepPerTier(w, s)
    ensures WorkUndisturbed(Next(w, s))
  {
    if s.Move? {
      if s.sweep in w.sweeps && w.sweeps[s.sweep].worklist != [] { MoveLeavesAllWork(w, s.sweep, s.handling); }
    } else {
      OtherStepLeavesWork(w, s);
    }
  }

  lemma {:induction false} RunLeavesWork(w: World, steps: seq<Step>)
    requires WorkUndisturbed(w) && Always(Next, w, steps, OneSweepPerTier)
    ensures WorkUndisturbed(Run(Next, w, steps))
  {
    if steps != [] {
      RunLeavesWork(w, steps[..|steps| - 1]);
      NextLeavesWork(Run(Next, w, steps[..|steps| - 1]), steps[|steps| - 1]);
    }
  }

  /** With no two overlapping sweeps from one tier of one company, crashed sweeps included: a sweep to another tier than
      standard counts a file without moving it if and only if the file was deleted between listing and update. */
  lemma OnlyDeletedFilesAreCountedUnmoved(now: int, steps: seq<Step>, x: nat, h: Handling)
    requires Always(Next, Start(now), steps, OneSweepPerTier)
    requires var w := Run(Next, Start(now), steps);
             Handles(w, Move(x, h), x) && h.copied && h.fate.Answered? && !w.sweeps[x].target.Standard?
    ensures var w := Run(Next, Start(now), steps);
            var id := w.sweeps[x].worklist[0];
            id in w.files && (CountsUnmoved(w, Move(x, h), x) <==> w.files[id].deleted)
  {
    CountsUnmovedIff(now, steps, x, h);
    RunLeavesWork(Start(now), steps);
    var w := Run(Next, Start(now), steps);
    assert StillThere(w, w.sweeps[x], w.sweeps[x].worklist[0]);
  }

  /** The step is counted though its file was deleted. */
  predicate CountsDeleted(w: World, s: Step, x: nat)
  {
    && Handles(w, s, x) && s.handling.copied && s.handling.fate.Answered?
    && w.sweeps[x].worklist[0] in w.files && w.files[w.sweeps[x].worklist[0]].deleted
  }

  /** The step's update of an undeleted file takes effect and its reply is lost. */
  predicate LosesReply(w: World, s: Step, x: nat)
  {
    && Handles(w, s, x) && s.handling.copied && s.handling.fate == Lost(true)
    && w.sweeps[x].worklist[0] in w.files && !w.files[w.sweeps[x].worklist[0]].deleted
  }

  ghost function CountingDeleted(x: nat): (World, Step) -> bool { (w, s) => CountsDeleted(w, s, x) }

  ghost function LosingReply(x: nat): (World, Step) -> bool { (w, s) => LosesReply(w, s, x) }

  lemma OnlyDeletedAreIdle(w: World, s: Step, x: nat)
    requires WorkUndisturbed(w) && (x in w.sweeps ==> !w.sweeps[x].target.Standard?)
    ensures CountsIdly(w, s, x) <==> CountsDeleted(w, s, x)
    ensures LandsUnreported(w, s, x) <==> LosesReply(w, s, x)
  {
    assert Handles(w, s, x) ==> StillThere(w, w.sweeps[x], w.sweeps[x].worklist[0]);
  }

  lemma {:induction false} OnlyDeletedAreIdleCounts(w: World, steps: seq<Step>, x: nat)
    requires WorkUndisturbed(w) && Always(Next, w, steps, OneSweepPerTier) && x in w.sweeps &&
             !w.sweeps[x].target.Standard?
    ensures x in Run(Next, w, steps).sweeps && Run(Next, w, steps).sweeps[x].target == w.sweeps[x].target
    ensures Count(Next, w, steps, CountingIdly(x)) == Count(Next, w, steps, CountingDeleted(x))
    ensures Count(Next, w, steps, LandingUnreported(x)) == Count(Next, w, steps, LosingReply(x))
  {
    if steps != [] {
      var before, s := steps[..|steps| - 1], steps[|steps| - 1];
      OnlyDeletedAreIdleCounts(w, before, x);
      RunLeavesWork(w, before);
      OnlyDeletedAreIdle(Run(Next, w, before), s, x);
      SweepKeepsTarget(Run(Next, w, before), s, x);
    }
  }

  lemma SweepKeepsTarget(w: World, s: Step, x: nat)
    requires x in w.sweeps
    ensures x in Next(w, s).sweeps && Next(w, s).sweeps[x].target == w.sweeps[x].target
  {
  }

  /** From the start, with no two overlapping sweeps from one tier of one company: the count of a sweep to another
      tier than standard is the number of files it moved if and only if the files deleted since they were listed that
      it handled with success are as many as its updates of undeleted files that took effect with their reply lost. */
  lemma SweepCountIsExactIffDeletionsMatchLostReplies(now: int, steps: seq<Step>, x: nat, company: string, target: Tier,
                                                      order: seq<string>, more: seq<Step>)
    requires var w := Run(Next, Start(now), steps);
             var list := List(x, company, target, order);
             && Always(Next, Start(now), steps, OneSweepPerTier) && OneSweepPerTier(w, list)
             && Always(Next, Next(w, list), more, OneSweepPerTier)
             && x !in w.sweeps && ListsDue(order, w.files, company, target, w.now) && !target.Standard?
    ensures var listed := Next(Run(Next, Start(now), steps), List(x, company, target, order));
            var w' := Run(Next, listed, more);
            && x in w'.sweeps
            && (w'.sweeps[x].migrated == Count(Next, listed, more, Moving(x)) <==>
                Count(Next, listed, more, CountingDeleted(x)) == Count(Next, listed, more, LosingReply(x)))
  {
    var w, list := Run(Next, Start(now), steps), List(x, company, target, order);
    RunLeavesWork(Start(now), steps);
    NextLeavesWork(w, list);
    OnlyDeletedAreIdleCounts(Next(w, list), more, x);
    SweepCountIsExactIff(w, x, company, target, order, more);
  }

  /** A run from the start on which a sweep counts one file and moves none: the file is deleted after being listed. */
  lemma DeletedFileIsCounted()
    ensures var w := Run(Next, Start(0), Aged(181 * DAY) + [List(0, "c", StandardIA, ["f"])] + [Delete("f", "c")]
            + [Move(0, Handling(true, Answered))]);
            && 0 in w.sweeps && w.sweeps[0].worklist == [] && w.sweeps[0].migrated == 1
            && InTier(w, "f", Standard)
  {
    var w := AgedFile(181 * DAY);
    var ok := Handling(true, Answered);
    var a, b := List(0, "c", StandardIA, ["f"]), Delete("f", "c");
    assert Next(w, a).sweeps == map[0 := Sweep("c", StandardIA, ["f"], 0)];
    RunSnoc(Next, Start(0), Aged(181 * DAY), a);
    RunSnoc(Next, Start(0), Aged(181 * DAY) + [a], b);
    RunSnoc(Next, Start(0), Aged(181 * DAY) + [a] + [b], Move(0, ok));
  }

  // ---- undisturbed sweeps ----

  /** The files after a sweep in which everything works: all due files are in the target tier. */
  function AfterSweep(files: map<string, File>, company: string, target: Tier, now: int): map<string, File>
  {
    map id | id in files :: if Due(files[id], company, target, now) then files[id].(tier := target) else files[id]
  }

  function AllGood(n: nat): seq<Handling> { seq(n, _ => Handling(true, Answered)) }

  lemma {:induction false} AllGoodCounts(n: nat)
    ensures Counted(AllGood(n)) == n
  {
    if n > 0 {
      assert AllGood(n)[..n - 1] == AllGood(n - 1);
      AllGoodCounts(n - 1);
    }
  }

  function GoodSweep(x: nat, company: string, target: Tier, order: seq<string>): seq<Step>
  {
    [List(x, company, target, order)] + Moves(x, AllGood(|order|))
  }

  /** An undisturbed sweep without failures moves every due file and no other, and counts them. */
  lemma GoodSweepMovesWhatIsDue(w: World, x: nat, company: string, target: Tier, order: seq<string>)
    requires x !in w.sweeps && ListsDue(order, w.files, company, target, w.now)
    ensures var w' := Run(Next, w, GoodSweep(x, company, target, order));
            && w'.now == w.now && w'.files == AfterSweep(w.files, company, target, w.now)
            && w'.sweeps == w.sweeps[x := Sweep(company, target, [], |order|)]
  {
    var first := List(x, company, target, order);
    RunOne(Next, w, first);
    RunConcat(Next, w, [first], Moves(x, AllGood(|order|)));
    GoodMovesMoveWhatIsDue(Next(w, first), x, company, target, order);
  }

  lemma GoodMovesMoveWhatIsDue(w: World, x: nat, company: string, target: Tier, order: seq<string>)
    requires x in w.sweeps && w.sweeps[x] == Sweep(company, target, order, 0) &&
             ListsDue(order, w.files, company, target, w.now)
    ensures var w' := Run(Next, w, Moves(x, AllGood(|order|)));
            && w'.now == w.now && w'.files == AfterSweep(w.files, company, target, w.now)
            && w'.sweeps == w.sweeps[x := Sweep(company, target, [], |order|)]
  {
    var good := AllGood(|order|);
    SweepSoFar(w, x, good, |order|);
    assert Moves(x, good)[..|order|] == Moves(x, good) && good[..|order|] == good;
    AllGoodCounts(|order|);
    assert SweepAt(w.sweeps[x], good, |order|) == Sweep(company, target, [], |order|);
    AllHandled(w.files, Run(Next, w, Moves(x, good)).files, company, target, order, w.now);
  }

  lemma AllHandled(files: map<string, File>, files': map<string, File>, company: string, target: Tier,
                   order: seq<string>, now: int)
    requires ListsDue(order, files, company, target, now)
    requires HandledSoFar(files, files', target, order, AllGood(|order|), |order|)
    ensures files' == AfterSweep(files, company, target, now)
  {
    forall id | id in files
      ensures files'[id] == AfterSweep(files, company, target, now)[id]
    {
      if id in order {
        var k :| 0 <= k < |order| && order[k] == id;
        assert files'[order[k]] == files[order[k]].(tier := target);
      } else {
        assert order[..|order|] == order;
      }
    }
  }

  // ---- two sweeps meet the policy ----

  /** Every active file of the company is in exactly the tier its age calls for. */
  ghost predicate MeetsPolicy(w: World, company: string)
  {
    forall id | id in w.files && w.files[id].company == company && w.files[id].status.Active? && !w.files[id].deleted ::
      w.files[id].tier == TierFor(w.now - w.files[id].createdAt)
  }

  /** Every active file of the company is in a tier of the policy. */
  ghost predicate AllKnown(w: World, company: string)
  {
    forall id | id in w.files && w.files[id].company == company && w.files[id].status.Active? && !w.files[id].deleted ::
      KnownTier(w.files[id].tier)
  }

  predicate Unaffected(f: File, company: string) { f.company != company || f.status.Pending? || f.deleted }

  /** From every reachable state, whatever sweeps went before: after a sweep to standard_ia followed by one to glacier
      at the same instant, undisturbed and without failures, the policy is met if and only if no earlier sweep had put
      an active file of the company into a tier that the policy does not know. Whoever repeats either sweep finds
      nothing due, and files of other companies, pending files and deleted ones are as they were. */
  lemma TwoSweepsMeetThePolicyIff(now: int, steps: seq<Step>, company: string, x: nat, y: nat, first: seq<string>,
                                  second: seq<string>)
    requires var w := Run(Next, Start(now), steps);
             && x !in w.sweeps && y !in w.sweeps && x != y
             && ListsDue(first, w.files, company, StandardIA, w.now)
             && ListsDue(second, AfterSweep(w.files, company, StandardIA, w.now), company, Glacier, w.now)
    ensures var w := Run(Next, Start(now), steps);
            var w' := Run(Next, w, GoodSweep(x, company, StandardIA, first) + GoodSweep(y, company, Glacier, second));
            && w'.now == w.now && (MeetsPolicy(w', company) <==> AllKnown(w, company))
            && (forall id, target | id in w'.files && target in {StandardIA, Glacier} ::
                 !Due(w'.files[id], company, target, w'.now))
            && (forall id | id in w.files && Unaffected(w.files[id], company) ::
                 id in w'.files && w'.files[id] == w.files[id])
  {
    var w := Run(Next, Start(now), steps);
    RunKeepsAges(now, steps);
    RunConcat(Next, w, GoodSweep(x, company, StandardIA, first), GoodSweep(y, company, Glacier, second));
    GoodSweepMovesWhatIsDue(w, x, company, StandardIA, first);
    var w1 := Run(Next, w, GoodSweep(x, company, StandardIA, first));
    GoodSweepMovesWhatIsDue(w1, y, company, Glacier, second);
    PolicyAfterBoth(w, Run(Next, w1, GoodSweep(y, company, Glacier, second)), company);
  }

  lemma PolicyAfterBoth(w: World, w': World, company: string)
    requires AgesAgree(w) && w'.now == w.now
    requires w'.files == AfterSweep(AfterSweep(w.files, company, StandardIA, w.now), company, Glacier, w.now)
    ensures MeetsPolicy(w', company) <==> AllKnown(w, company)
  {
    forall id | id in w.files && w.files[id].company == company && w.files[id].status.Active? && !w.files[id].deleted
      ensures w'.files[id].tier == TierFor(w'.now - w'.files[id].createdAt) <==> KnownTier(w.files[id].tier)
    {
      assert OldEnough(w.files[id], w.now);
    }
  }

  /** With sweeps to standard_ia and glacier only, the policy is always met. */
  lemma TwoSweepsMeetThePolicy(now: int, steps: seq<Step>, company: string, x: nat, y: nat, first: seq<string>,
                               second: seq<string>)
    requires Always(Next, Start(now), steps, KnownTarget)
    requires var w := Run(Next, Start(now), steps);
             && x !in w.sweeps && y !in w.sweeps && x != y
             && ListsDue(first, w.files, company, StandardIA, w.now)
             && ListsDue(second, AfterSweep(w.files, company, StandardIA, w.now), company, Glacier, w.now)
    ensures var w := Run(Next, Start(now), steps);
            MeetsPolicy(Run(Next, w, GoodSweep(x, company, StandardIA, first) + GoodSweep(y, company, Glacier, second)),
              company)
  {
    TwoSweepsMeetThePolicyIff(now, steps, company, x, y, first, second);
    TiersStayKnown(now, steps);
  }

  predicate Archived(files: map<string, File>)
  {
    && files.Keys == {"f"} && files["f"].company == "c" && files["f"].status.Active? && !files["f"].deleted
    && files["f"].tier == Other("archive")
  }

  lemma ArchivedBySweep(files: map<string, File>, now: int)
    requires files.Keys == {"f"} && Due(files["f"], "c", Other("archive"), now)
    ensures Archived(AfterSweep(files, "c", Other("archive"), now))
  {
  }

  lemma ArchivedFile() returns (w: World)
    ensures w == Run(Next, Start(0), Aged(181 * DAY) + GoodSweep(0, "c", Other("archive"), ["f"]))
    ensures Archived(w.files) && w.sweeps.Keys == {0}
  {
    var aged := AgedFile(181 * DAY);
    RunConcat(Next, Start(0), Aged(181 * DAY), GoodSweep(0, "c", Other("archive"), ["f"]));
    GoodSweepMovesWhatIsDue(aged, 0, "c", Other("archive"), ["f"]);
    ArchivedBySweep(aged.files, aged.now);
    w := Run(Next, aged, GoodSweep(0, "c", Other("archive"), ["f"]));
  }

  /** A run from the start on which one sweep to an unknown tier puts the policy out of reach. */
  lemma UnknownTargetIsForGood()
    ensures var archived := Aged(181 * DAY) + GoodSweep(0, "c", Other("archive"), ["f"]);
            var w := Run(Next, Start(0), archived
              + (GoodSweep(1, "c", StandardIA, []) + GoodSweep(2, "c", Glacier, [])));
            !MeetsPolicy(w, "c")
  {
    var w := ArchivedFile();
    var archived := Aged(181 * DAY) + GoodSweep(0, "c", Other("archive"), ["f"]);
    RunConcat(Next, Start(0), archived, GoodSweep(1, "c", StandardIA, []) + GoodSweep(2, "c", Glacier, []));
    TwoSweepsMeetThePolicyIff(0, archived, "c", 1, 2, [], []);
    assert !AllKnown(w, "c");
  }

  /** The order of the two sweeps matters: the other way round they meet the policy if and only if, besides, no active
      standard file of the company is more than two years old. */
  lemma OtherOrderMeetsThePolicyIff(now: int, steps: seq<Step>, company: string, x: nat, y: nat, first: seq<string>,
                                    second: seq<string>)
    requires var w := Run(Next, Start(now), steps);
             && x !in w.sweeps && y !in w.sweeps && x != y
             && ListsDue(first, w.files, company, Glacier, w.now)
             && ListsDue(second, AfterSweep(w.files, company, Glacier, w.now), company, StandardIA, w.now)
    ensures var w := Run(Next, Start(now), steps);
            var w' := Run(Next, w, GoodSweep(x, company, Glacier, first) + GoodSweep(y, company, StandardIA, second));
            MeetsPolicy(w', company) <==> AllKnown(w, company) && NoneIsTwoYearsOld(w, company)
  {
    var w := Run(Next, Start(now), steps);
    RunKeepsAges(now, steps);
    RunConcat(Next, w, GoodSweep(x, company, Glacier, first), GoodSweep(y, company, StandardIA, second));
    GoodSweepMovesWhatIsDue(w, x, company, Glacier, first);
    var w1 := Run(Next, w, GoodSweep(x, company, Glacier, first));
    GoodSweepMovesWhatIsDue(w1, y, company, StandardIA, second);
    PolicyAfterOtherOrder(w, Run(Next, w1, GoodSweep(y, company, StandardIA, second)), company);
  }

  /** No active standard file of the company is more than two years old. */
  ghost predicate NoneIsTwoYearsOld(w: World, company: string)
  {
    forall id | id in w.files && Due(w.files[id], company, StandardIA, w.now) ::
      w.files[id].createdAt >= w.now - 730 * DAY
  }

  lemma PolicyAfterOtherOrder(w: World, w': World, company: string)
    requires AgesAgree(w) && w'.now == w.now
    requires w'.files == AfterSweep(AfterSweep(w.files, company, Glacier, w.now), company, StandardIA, w.now)
    ensures MeetsPolicy(w', company) <==> AllKnown(w, company) && NoneIsTwoYearsOld(w, company)
  {
    forall id | id in w.files && w.files[id].company == company && w.files[id].status.Active? && !w.files[id].deleted
      ensures w'.files[id].tier == TierFor(w'.now - w'.files[id].createdAt) <==>
              KnownTier(w.files[id].tier) &&
                (Due(w.files[id], company, StandardIA, w.now) ==> w.files[id].createdAt >= w.now - 730 * DAY)
    {
      assert OldEnough(w.files[id], w.now);
    }
  }
}
