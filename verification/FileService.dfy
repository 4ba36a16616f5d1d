/** The file service's own code, statement by statement: its table, the upload flow and the sweep loop. A sweep is
    proved to be a run of the protocol, with anything others do between its remote commands. */
module FileService {
  import opened Prelude
  import opened Runs
  import opened FileTiers

  /** The steps others take before a file is handled, and how it fares. */
  datatype Moment = Moment(others: seq<Step>, handling: Handling)

  /** What others do between a confirmation's read and its update, and the update's fate. */
  datatype Interlude = Interlude(others: seq<Step>, fate: Fate)

  predicate Leaves(s: Step, sweep: nat) { s.List? || s.Move? || s.Abandon? ==> s.sweep != sweep }

  predicate LeavesConfirm(s: Step, confirm: nat) { s.FindPending? || s.Activate? ==> s.confirm != confirm }

  lemma {:induction false} OthersLeaveConfirm(w: World, steps: seq<Step>, confirm: nat)
    requires confirm in w.confirms && forall k | 0 <= k < |steps| :: LeavesConfirm(steps[k], confirm)
    ensures var w' := Run(Next, w, steps); confirm in w'.confirms && w'.confirms[confirm] == w.confirms[confirm]
  {
    if steps != [] {
      OthersLeaveConfirm(w, steps[..|steps| - 1], confirm);
      assert LeavesConfirm(steps[|steps| - 1], confirm);
    }
  }

  ghost predicate LeavesAlone(steps: seq<Step>, sweep: nat)
  {
    forall k | 0 <= k < |steps| :: Leaves(steps[k], sweep)
  }

  lemma StepLeavesSweep(w: World, s: Step, sweep: nat)
    requires Leaves(s, sweep)
    ensures sweep in Next(w, s).sweeps <==> sweep in w.sweeps
    ensures sweep in w.sweeps ==> Next(w, s).sweeps[sweep] == w.sweeps[sweep]
  {
  }

  lemma {:induction false} OthersLeaveSweep(w: World, steps: seq<Step>, sweep: nat)
    requires LeavesAlone(steps, sweep)
    ensures var w' := Run(Next, w, steps);
            (sweep in w'.sweeps <==> sweep in w.sweeps) && (sweep in w.sweeps ==> w'.sweeps[sweep] == w.sweeps[sweep])
  {
    if steps != [] {
      var before := steps[..|steps| - 1];
      OthersLeaveSweep(w, before, sweep);
      StepLeavesSweep(Run(Next, w, before), steps[|steps| - 1], sweep);
    }
  }

  /** The sweep's moves, each after what others do before it. */
  function Interleaved(sweep: nat, script: seq<Moment>): seq<Step>
  {
    if script == [] then []
    else
      var m := script[|script| - 1];
      Interleaved(sweep, script[..|script| - 1]) + (m.others + [Move(sweep, m.handling)])
  }

  datatype Error = InvalidInput | NotFound | StorageFailure

  datatype Outcome<T> = Ok(value: T) | Err(error: Error)

  class FileRepository {
    var now: int
    var files: map<string, File>

    constructor (now: int)
      ensures this.now == now && files == map[]
    {
      this.now, files := now, map[];
    }

    method Create(id: string, file: File, fate: Fate) returns (failed: bool)
      modifies `files
      ensures failed == (fate.Lost? || id in old(files))
      ensures files == if fate.Applied() && id !in old(files) then old(files)[id := file] else old(files)
    {
      if id in files { return true; }
      if fate.Applied() { files := files[id := file]; }
      return fate.Lost?;
    }

    method FindByID(company: string, id: string) returns (found: Outcome<File>)
      ensures found == if id in files && files[id].company == company && !files[id].deleted then Ok(files[id])
              else Err(NotFound)
    {
      if id in files && files[id].company == company && !files[id].deleted { return Ok(files[id]); }
      return Err(NotFound);
    }

    method UpdateStatus(id: string, status: Status, size: int, fate: Fate) returns (failed: bool)
      modifies `files
      ensures failed == fate.Lost? && files.Keys == old(files.Keys)
      ensures forall k | k in files ::
                files[k] == if k == id && fate.Applied() && !old(files)[k].deleted
                            then old(files)[k].(status := status, size := if size > 0 then size else old(files)[k].size)
                            else old(files)[k]
      ensures status.Active? ==> files == if fate.Applied() then Activated(old(files), id, size) else old(files)
    {
      if fate.Applied() && id in files && !files[id].deleted {
        var updated := files[id].(status := status);
        if size > 0 { updated := updated.(size := size); }
        files := files[id := updated];
      }
      return fate.Lost?;
    }

    method UpdateStorageTier(id: string, tier: Tier, fate: Fate) returns (failed: bool)
      modifies `files
      ensures failed == fate.Lost? && files == Retiered(old(files), id, tier, Handling(true, fate))
      ensures files.Keys == old(files.Keys)
      ensures forall k | k in files ::
                files[k] == if k == id && fate.Applied() && !old(files)[k].deleted then old(files)[k].(tier := tier)
                            else old(files)[k]
    {
      if fate.Applied() && id in files && !files[id].deleted { files := files[id := files[id].(tier := tier)]; }
      return fate.Lost?;
    }

    /** The active files of the company in the given tier created before the cutoff, each once, in any order. */
    method ListForLifecycleMigration(company: string, currentTier: Tier, olderThan: int) returns (order: seq<string>)
      ensures NoDuplicates(order)
      ensures forall id :: id in order <==>
                id in files && files[id].company == company && files[id].tier == currentTier && files[id].status.Active?
                && !files[id].deleted && files[id].createdAt < olderThan
    {
      order := [];
      var left := files.Keys;
      while left != {}
        invariant left <= files.Keys && NoDuplicates(order)
        invariant forall id :: id in order <==>
                    id in files && id !in left && files[id].company == company && files[id].tier == currentTier
                    && files[id].status.Active? && !files[id].deleted && files[id].createdAt < olderThan
        decreases left
      {
        var id :| id in left;
        left := left - {id};
        var f := files[id];
        if f.company == company && f.tier == currentTier && f.status.Active? && !f.deleted && f.createdAt < olderThan {
          order := order + [id];
        }
      }
    }
  }

  class Service {
    const repo: FileRepository

    // bookkeeping: the sweeps and the confirmations on their way
    var sweeps: map<nat, Sweep>
    var confirms: map<nat, string>

    function View(): World
      reads this, repo
    {
      World(repo.now, repo.files, sweeps, confirms)
    }

    constructor (now: int)
      ensures View() == Start(now) && fresh(repo)
    {
      repo := new FileRepository(now);
      sweeps, confirms := map[], map[];
    }

    /** Others proceed for a while. */
    method Pause(others: seq<Step>)
      modifies this, repo
      ensures View() == Run(Next, old(View()), others)
    {
      var w := Run(Next, View(), others);
      repo.now, repo.files, sweeps, confirms := w.now, w.files, w.sweeps, w.confirms;
    }

    /** The upload flow's first half: refuse incomplete input, then store a pending row in the standard tier. */
    method PresignUpload(id: string, company: string, uploadedBy: string, name: string, size: int, presigned: bool,
                         fate: Fate)
      returns (key: Outcome<string>, ghost steps: seq<Step>)
      requires id !in repo.files
      modifies this, repo
      ensures View() == Run(Next, old(View()), steps)
      ensures key.Ok? ==>
                && presigned && fate.Answered? && key.value == company + "/" + id + "/" + name && id in repo.files
                && repo.files[id]
                     == File(company, uploadedBy, name, key.value, size, Pending, Standard, repo.now, false)
      ensures key == Err(InvalidInput) <==> company == "" || uploadedBy == "" || name == ""
      ensures key.Err? && fate != Lost(true) ==> repo.files == old(repo.files)
    {
      steps := [];
      if company == "" || uploadedBy == "" || name == "" { return Err(InvalidInput), steps; }
      var s3Key := company + "/" + id + "/" + name;
      if !presigned { return Err(StorageFailure), steps; }
      var s := Upload(id, company, uploadedBy, name, size, fate);
      var failed := repo.Create(id, File(company, uploadedBy, name, s3Key, size, Pending, Standard, repo.now, false),
        fate);
      steps := [s];
      RunOne(Next, old(View()), s);
      key := if failed then Err(StorageFailure) else Ok(s3Key);
    }

    /** The second half: a row of the company found pending is made active, whatever others have made of it in between;
        the answer is made from the row as it was found. */
    method ConfirmUpload(confirm: nat, company: string, id: string, size: int, m: Interlude)
      returns (file: Outcome<File>, ghost steps: seq<Step>)
      requires confirm !in confirms && forall k | 0 <= k < |m.others| :: LeavesConfirm(m.others[k], confirm)
      modifies this, repo
      ensures View() == Run(Next, old(View()), steps)
      ensures steps == if old(Confirmable(View(), id, company))
                       then [FindPending(confirm, id, company)] + (m.others + [Activate(confirm, size, m.fate)]) else []
      ensures file.Ok? <==>
              && old(id in repo.files && repo.files[id].company == company && !repo.files[id].deleted &&
                     repo.files[id].status.Pending?)
              && m.fate.Answered?
      ensures file.Ok? ==> file.value == old(repo.files)[id].(status := Active, size := size)
      ensures file == Err(NotFound) <==>
              !old(id in repo.files && repo.files[id].company == company && !repo.files[id].deleted)
    {
      steps := [];
      var found := repo.FindByID(company, id);
      if found.Err? { return found, steps; }
      if !found.value.status.Pending? { return Err(InvalidInput), steps; }
      confirms := confirms[confirm := id];
      RunOne(Next, old(View()), FindPending(confirm, id, company));

      ghost var rest;
      var failed;
      failed, rest := ActivateFile(confirm, id, size, m);
      RunConcat(Next, old(View()), [FindPending(confirm, id, company)], rest);
      steps := [FindPending(confirm, id, company)] + rest;
      if failed { return Err(StorageFailure), steps; }
      file := Ok(found.value.(status := Active, size := size));
    }

    method ActivateFile(confirm: nat, id: string, size: int, m: Interlude)
      returns (failed: bool, ghost steps: seq<Step>)
      requires confirm in confirms && confirms[confirm] == id && forall k | 0 <= k < |m.others| ::
               LeavesConfirm(m.others[k], confirm)
      modifies this, repo
      ensures View() == Run(Next, old(View()), steps) && steps == m.others + [Activate(confirm, size, m.fate)]
      ensures failed == m.fate.Lost?
    {
      OthersLeaveConfirm(View(), m.others, confirm);
      Pause(m.others);
      RunSnoc(Next, old(View()), m.others, Activate(confirm, size, m.fate));
      steps := m.others + [Activate(confirm, size, m.fate)];
      failed := repo.UpdateStatus(id, Active, size, m.fate);
      confirms := confirms - {confirm};
    }

    /** Handles the file at the head of the sweep's worklist: copy its object, then update its row. */
    method MigrateFile(sweep: nat, m: Moment) returns (migrated: bool, ghost steps: seq<Step>)
      requires sweep in sweeps && sweeps[sweep].worklist != [] && LeavesAlone(m.others, sweep)
      modifies this, repo
      ensures View() == Run(Next, old(View()), steps) && steps == m.others + [Move(sweep, m.handling)]
      ensures sweep in sweeps && sweeps[sweep] == Handled(old(sweeps[sweep]), m.handling)
      ensures migrated == (m.handling.copied && m.handling.fate.Answered?)
      ensures var id := old(sweeps[sweep].worklist[0]);
              m.handling.copied && m.handling.fate.Applied() && id in repo.files && !repo.files[id].deleted ==>
                repo.files[id].tier == old(sweeps[sweep].target)
    {
      OthersLeaveSweep(View(), m.others, sweep);
      Pause(m.others);
      RunSnoc(Next, old(View()), m.others, Move(sweep, m.handling));
      steps := m.others + [Move(sweep, m.handling)];
      var id, target := sweeps[sweep].worklist[0], sweeps[sweep].target;
      migrated := false;
      if m.handling.copied {
        var failed := repo.UpdateStorageTier(id, target, m.handling.fate);
        migrated := !failed;
      }
      sweeps := sweeps[sweep := Handled(sweeps[sweep], m.handling)];
    }

    /** Handles the whole worklist and counts the files whose handling reported success. */
    method MigrateFiles(sweep: nat, script: seq<Moment>) returns (count: nat, ghost steps: seq<Step>)
      requires sweep in sweeps && |sweeps[sweep].worklist| <= |script| && sweeps[sweep].migrated == 0
      requires forall k | 0 <= k < |script| :: LeavesAlone(script[k].others, sweep)
      modifies this, repo
      ensures View() == Run(Next, old(View()), steps) &&
              steps == Interleaved(sweep, script[..|old(sweeps)[sweep].worklist|])
      ensures sweep in sweeps && sweeps[sweep].worklist == [] && count == sweeps[sweep].migrated
    {
      var files := sweeps[sweep].worklist;
      steps, count := [], 0;
      for k := 0 to |files|
        invariant View() == Run(Next, old(View()), steps) && steps == Interleaved(sweep, script[..k])
        invariant sweep in sweeps && sweeps[sweep].worklist == files[k..] && sweeps[sweep].migrated == count
      {
        ghost var more;
        var moved;
        moved, more := MigrateFile(sweep, script[k]);
        RunConcat(Next, old(View()), steps, more);
        steps := steps + more;
        assert script[..k + 1][..k] == script[..k];
        if !moved { continue; }
        count := count + 1;
      }
    }

    /** The sweep: list what is due, then handle each file and count those that reported success. Whatever others do in
        between, it is a run of the protocol at whose end its work is done and its count returned. */
    method Execute(sweep: nat, company: string, target: Tier, listed: bool, script: seq<Moment>)
      returns (migrated: Outcome<nat>, ghost steps: seq<Step>)
      requires sweep !in sweeps && |repo.files| <= |script|
      requires forall k | 0 <= k < |script| :: LeavesAlone(script[k].others, sweep)
      modifies this, repo
      ensures View() == Run(Next, old(View()), steps)
      ensures migrated.Err? ==> !listed && steps == []
      ensures migrated.Ok? ==>
              listed && steps != [] && steps[0].List? && steps[0].sweep == sweep && steps[0].company == company
                               && steps[0].target == target && |steps[0].order| <= |script|
                               && steps[1..] == Interleaved(sweep, script[..|steps[0].order|])
      ensures migrated.Ok? && target.Glacier? ==>
              forall id :: id in steps[0].order <==>
                           id in old(repo.files) &&
                             var f := old(repo.files)[id];
                             && f.company == company && f.tier == StandardIA && f.status.Active? && !f.deleted
                             && f.createdAt < old(repo.now) - 63_072_000
      ensures migrated.Ok? && !target.Glacier? ==>
              forall id :: id in steps[0].order <==>
                           id in old(repo.files) &&
                             var f := old(repo.files)[id];
                             && f.company == company && f.tier == Standard && f.status.Active? && !f.deleted
                             && f.createdAt < old(repo.now) - 15_552_000
      ensures migrated.Ok? ==>
              sweep in sweeps && sweeps[sweep].worklist == [] && migrated.value == sweeps[sweep].migrated
    {
      var currentTier := if target.Glacier? then StandardIA else Standard;
      var cutoff := repo.now - AfterAge(currentTier);
      if !listed { return Err(StorageFailure), []; }
      var files := repo.ListForLifecycleMigration(company, currentTier, cutoff);
      ghost var first := List(sweep, company, target, files);
      RunOne(Next, View(), first);
      sweeps := sweeps[sweep := Sweep(company, target, files, 0)];
      NoMoreThanFiles(files, repo.files);

      var count;
      ghost var moves;
      count, moves := MigrateFiles(sweep, script);
      RunConcat(Next, old(View()), [first], moves);
      return Ok(count), [first] + moves;
    }
  }

  /** A list of distinct keys is no longer than the map. */
  lemma {:induction false} NoMoreThanFiles(order: seq<string>, files: map<string, File>)
    requires NoDuplicates(order) && forall id | id in order :: id in files
    ensures |order| <= |files|
  {
    if order != [] {
      var n := |order| - 1;
      var fewer := files - {order[n]};
      assert forall id | id in order[..n] :: id in order && id in fewer;
      NoMoreThanFiles(order[..n], fewer);
      assert fewer.Keys == files.Keys - {order[n]} && |fewer.Keys| == |files.Keys| - 1;
      assert |fewer| == |fewer.Keys| && |files| == |files.Keys|;
    }
  }
}
