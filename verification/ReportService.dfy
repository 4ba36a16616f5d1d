/** The report service's own code, statement by statement: requesting a report and processing its message are runs of
    the protocol, with anything others do in between. */
module ReportService {
  import opened Prelude
  import opened Runs
  import opened Reports
  import Broker

  /** The steps others take before a remote command, the command's own fate, and the text it answers with. */
  datatype Moment = Moment(others: seq<Step>, fate: Fate, text: string)

  predicate Leaves(s: Step, mine: set<nat>)
  {
    s.Deliver? || s.Advance? || (s.Drop? && s.stops) ==> s.attempt !in mine
  }

  ghost predicate LeavesAlone(steps: seq<Step>, mine: set<nat>)
  {
    forall k | 0 <= k < |steps| :: Leaves(steps[k], mine)
  }

  lemma StepLeavesAttempts(w: World, s: Step, mine: set<nat>)
    requires Leaves(s, mine)
    ensures forall x | x in mine :: x in Next(w, s).attempts <==> x in w.attempts
    ensures forall x | x in mine && x in w.attempts :: Next(w, s).attempts[x] == w.attempts[x]
  {
  }

  lemma {:induction false} OthersLeaveAttempts(w: World, steps: seq<Step>, mine: set<nat>)
    requires LeavesAlone(steps, mine)
    ensures var w' := Run(Next, w, steps);
            && (forall x | x in mine :: x in w'.attempts <==> x in w.attempts)
            && (forall x | x in mine && x in w.attempts :: w'.attempts[x] == w.attempts[x])
  {
    if steps != [] {
      var before := steps[..|steps| - 1];
      OthersLeaveAttempts(w, before, mine);
      StepLeavesAttempts(Run(Next, w, before), steps[|steps| - 1], mine);
    }
  }

  lemma StepKeepsJobRow(w: World, s: Step, id: string)
    requires id in w.jobs
    ensures id in Next(w, s).jobs && BodyFor(id, Next(w, s).jobs[id]) == BodyFor(id, w.jobs[id])
    ensures Next(w, s).jobs[id].requestedBy == w.jobs[id].requestedBy
  {
  }

  /** A job's row stays, and what its message says of it, and who asked for it. */
  lemma {:induction false} JobRowsPersist(w: World, steps: seq<Step>, id: string)
    requires id in w.jobs
    ensures var w' := Run(Next, w, steps);
            && id in w'.jobs && BodyFor(id, w'.jobs[id]) == BodyFor(id, w.jobs[id])
            && w'.jobs[id].requestedBy == w.jobs[id].requestedBy
  {
    if steps != [] {
      var before := steps[..|steps| - 1];
      JobRowsPersist(w, before, id);
      StepKeepsJobRow(Run(Next, w, before), steps[|steps| - 1], id);
    }
  }

  /** Signing a URL changes nothing but the consumer's own attempt. */
  lemma SigningStaysPrivate(w: World, x: nat, fate: Fate, text: string)
    requires x in w.attempts && w.attempts[x].stage.Signing?
    ensures Next(w, Advance(x, fate, text))
            == w.(attempts := w.attempts[x := AttemptAfter(w.attempts[x], fate, text)])
    ensures w.attempts[x].body.Requested? && fate.Lost? ==>
              AttemptAfter(w.attempts[x], fate, text).error == "presigning download url: " + text
  {
  }

  datatype Column = S3Key | DownloadURL | ErrorMsg

  /** The row with its status and the given columns written. */
  function Written(j: Job, status: Status, updates: map<Column, string>): Job
  {
    j.(status := status,
       s3Key := if S3Key in updates then updates[S3Key] else j.s3Key,
       downloadURL := if DownloadURL in updates then updates[DownloadURL] else j.downloadURL,
       errorMsg := if ErrorMsg in updates then updates[ErrorMsg] else j.errorMsg)
  }

  /** The jobs table. */
  class ReportRepository {
    var jobs: map<string, Job>

    constructor ()
      ensures jobs == map[]
    {
      jobs := map[];
    }

    /** Insert; an id in use and an id that is none are rejected. */
    method Create(id: string, job: Job, fate: Fate) returns (failed: bool)
      modifies `jobs
      ensures failed <==> fate.Lost? || id in old(jobs) || !Uuid(job.company)
      ensures jobs == if fate.Applied() && id !in old(jobs) && Uuid(job.company) then old(jobs)[id := job]
              else old(jobs)
    {
      if id in jobs || '/' in job.company { return true; }
      if fate.Applied() { jobs := jobs[id := job]; }
      return fate.Lost?;
    }

    method FindByID(company: string, id: string, fate: Fate) returns (job: Option<Job>)
      ensures job == if fate.Answered? && id in jobs && jobs[id].company == company then Some(jobs[id]) else None
    {
      if fate.Lost? || id !in jobs || jobs[id].company != company { return None; }
      return Some(jobs[id]);
    }

    /** Writes the status, and of the other columns those with a text to write. */
    method UpdateStatus(id: string, status: Status, s3Key: string, downloadURL: string, errorMsg: string, fate: Fate)
      returns (failed: bool)
      modifies `jobs
      ensures jobs == if fate.Applied() then Reports.UpdateStatus(old(jobs), id, status, s3Key, downloadURL, errorMsg)
              else old(jobs)
      ensures failed == fate.Lost?
      ensures fate.Applied() && id in old(jobs) ==>
                && id in jobs && jobs[id].status == status
                && jobs[id].s3Key == (if s3Key != "" then s3Key else old(jobs)[id].s3Key)
                && jobs[id].downloadURL == (if downloadURL != "" then downloadURL else old(jobs)[id].downloadURL)
                && jobs[id].errorMsg == (if errorMsg != "" then errorMsg else old(jobs)[id].errorMsg)
    {
      var updates: map<Column, string> := map[];
      if s3Key != "" { updates := updates[S3Key := s3Key]; }
      if downloadURL != "" { updates := updates[DownloadURL := downloadURL]; }
      if errorMsg != "" { updates := updates[ErrorMsg := errorMsg]; }
      if fate.Applied() && id in jobs { jobs := jobs[id := Written(jobs[id], status, updates)]; }
      return fate.Lost?;
    }
  }

  class Service {
    const repo: ReportRepository
    /** The attempts this consumer makes. */
    ghost const mine: set<nat>
    var objects: map<string, Report>
    var bodies: map<nat, Body>
    var queue: Broker.Queue
    var bus: seq<Completed>

    // bookkeeping
    var attempts: map<nat, Attempt>

    function View(): World
      reads this, repo
    {
      World(repo.jobs, objects, bodies, attempts, queue, bus)
    }

    ghost predicate Others(m: Moment) { LeavesAlone(m.others, mine) }

    /** Every step is attempt x's own, or leaves this consumer's attempts alone. */
    ghost predicate Own(steps: seq<Step>, x: nat)
    {
      forall k | 0 <= k < |steps| :: Leaves(steps[k], mine) || (steps[k].Advance? && steps[k].attempt == x)
    }

    constructor (ghost mine: set<nat>, stamp: nat -> nat)
      ensures View() == Start(stamp) && this.mine == mine && fresh(repo)
    {
      repo := new ReportRepository();
      this.mine := mine;
      objects, bodies, attempts, queue, bus := map[], map[], map[], Broker.NewQueue(stamp), [];
    }

    /** Others proceed for a while. */
    method Pause(others: seq<Step>)
      requires LeavesAlone(others, mine)
      modifies this, repo
      ensures View() == Run(Next, old(View()), others)
      ensures forall x | x in mine :: x in attempts <==> x in old(attempts)
      ensures forall x | x in mine && x in attempts :: attempts[x] == old(attempts)[x]
    {
      OthersLeaveAttempts(View(), others, mine);
      var w := Run(Next, View(), others);
      repo.jobs, objects, bodies, attempts, queue, bus := w.jobs, w.objects, w.bodies, w.attempts, w.queue, w.bus;
    }

    // ---- requesting a report ----

    /** Stores the job, then posts its message; failing to post is ignored. */
    method RequestReport(id: string, company: string, requestedBy: string, kind: string, params: string, message: nat,
                         create: Moment, post: Moment) returns (accepted: bool, ghost steps: seq<Step>)
      requires Others(create) && Others(post)
      modifies this, repo
      ensures View() == Run(Next, old(View()), steps)
      ensures steps == create.others + [Submit(id, company, requestedBy, kind, params, create.fate)]
                       + if accepted then post.others + [Post(message, id, post.fate)] else []
      ensures accepted ==> create.fate.Answered? && Uuid(company)
      ensures accepted ==>
                && id in repo.jobs && repo.jobs[id].company == company && repo.jobs[id].requestedBy == requestedBy
                && repo.jobs[id].kind == kind && repo.jobs[id].params == params
    {
      accepted, steps := StoreJob(id, company, requestedBy, kind, params, create);
      if !accepted { return; }

      ghost var posting := PostMessage(id, message, BodyFor(id, repo.jobs[id]), post);
      RunConcat(Next, old(View()), steps, posting);
      steps := steps + posting;
    }

    /** Stores the queued job. */
    method StoreJob(id: string, company: string, requestedBy: string, kind: string, params: string, m: Moment)
      returns (stored: bool, ghost steps: seq<Step>)
      requires Others(m)
      modifies this, repo
      ensures View() == Run(Next, old(View()), steps)
      ensures steps == m.others + [Submit(id, company, requestedBy, kind, params, m.fate)]
      ensures stored ==> m.fate.Answered? && Uuid(company)
      ensures stored ==> id in repo.jobs &&
                         repo.jobs[id] == Job(company, requestedBy, kind, params, Queued, "", "", "")
    {
      Pause(m.others);
      ghost var submit := Submit(id, company, requestedBy, kind, params, m.fate);
      RunSnoc(Next, old(View()), m.others, submit);
      steps := m.others + [submit];
      var job := Job(company, requestedBy, kind, params, Queued, "", "", "");
      var failed := repo.Create(id, job, m.fate);
      stored := !failed;
    }

    method PostMessage(id: string, message: nat, body: Body, m: Moment) returns (ghost steps: seq<Step>)
      requires Others(m) && id in repo.jobs && body == BodyFor(id, repo.jobs[id])
      modifies this, repo
      ensures View() == Run(Next, old(View()), steps)
      ensures steps == m.others + [Post(message, id, m.fate)]
      ensures id in repo.jobs && BodyFor(id, repo.jobs[id]) == body
      ensures repo.jobs[id].requestedBy == old(repo.jobs[id].requestedBy)
    {
      JobRowsPersist(View(), m.others, id);
      Pause(m.others);
      RunSnoc(Next, old(View()), m.others, Post(message, id, m.fate));
      steps := m.others + [Post(message, id, m.fate)];
      if m.fate.Applied() && message !in bodies {
        queue := Broker.Published(queue, message);
        bodies := bodies[message := body];
      }
    }

    // ---- processing one ----

    method MarkStatus(x: nat, status: Status, s3Key: string, url: string, error: string, m: Moment)
      returns (failed: bool, ghost steps: seq<Step>)
      requires x in mine && x in attempts && Others(m) && attempts[x].body.Requested? && WritesStatus(attempts[x].stage)
      requires attempts[x].stage.Marking? ==> status == Processing && s3Key == "" && url == "" && error == ""
      requires attempts[x].stage.Readying? ==>
                 status == Ready && s3Key == Key(attempts[x].body.company, attempts[x].body.job) &&
                   url == attempts[x].url && error == ""
      requires attempts[x].stage.MarkingFailed? ==>
               status == Failed && s3Key == "" && url == "" && error == attempts[x].error
      modifies this, repo
      ensures View() == Run(Next, old(View()), steps) && Own(steps, x)
      ensures x in attempts && attempts[x] == AttemptAfter(old(attempts[x]), m.fate, m.text) && failed == m.fate.Lost?
      ensures var job := attempts[x].body.job;
              m.fate.Applied() && job in repo.jobs ==> repo.jobs[job].status == status
      ensures failed && old(attempts[x]).stage.Marking? ==> attempts[x].error == "marking processing: " + m.text
      ensures failed && old(attempts[x]).stage.Readying? ==> attempts[x].error == "marking ready: " + m.text
    {
      Pause(m.others);
      RunSnoc(Next, old(View()), m.others, Advance(x, m.fate, m.text));
      steps := m.others + [Advance(x, m.fate, m.text)];
      failed := repo.UpdateStatus(attempts[x].body.job, status, s3Key, url, error, m.fate);
      attempts := attempts[x := AttemptAfter(attempts[x], m.fate, m.text)];
    }

    method UploadJSON(x: nat, key: string, data: Report, m: Moment) returns (failed: bool, ghost steps: seq<Step>)
      requires x in mine && x in attempts && Others(m) && attempts[x].stage.Uploading? && attempts[x].body.Requested?
      requires var b := attempts[x].body;
               key == Key(b.company, b.job) && data == Report(b.job, b.company, b.kind, b.params)
      modifies this, repo
      ensures View() == Run(Next, old(View()), steps) && Own(steps, x)
      ensures x in attempts && attempts[x] == AttemptAfter(old(attempts[x]), m.fate, m.text) && failed == m.fate.Lost?
      ensures m.fate.Applied() ==> key in objects && objects[key] == data
      ensures failed ==> attempts[x].error == "uploading report: " + m.text
    {
      Pause(m.others);
      RunSnoc(Next, old(View()), m.others, Advance(x, m.fate, m.text));
      steps := m.others + [Advance(x, m.fate, m.text)];
      if m.fate.Applied() { objects := objects[key := data]; }
      attempts := attempts[x := AttemptAfter(attempts[x], m.fate, m.text)];
      failed := m.fate.Lost?;
    }

    method PresignGetURL(x: nat, key: string, m: Moment) returns (url: Option<string>, ghost steps: seq<Step>)
      requires x in mine && x in attempts && Others(m) && attempts[x].stage.Signing? && attempts[x].body.Requested?
      requires key == Key(attempts[x].body.company, attempts[x].body.job)
      modifies this, repo
      ensures View() == Run(Next, old(View()), steps) && Own(steps, x)
      ensures x in attempts && attempts[x] == AttemptAfter(old(attempts[x]), m.fate, m.text)
      ensures url == if m.fate.Lost? then None else Some(SignedURL(key, m.text))
      ensures url.None? ==> attempts[x].error == "presigning download url: " + m.text
    {
      Pause(m.others);
      RunSnoc(Next, old(View()), m.others, Advance(x, m.fate, m.text));
      steps := m.others + [Advance(x, m.fate, m.text)];
      SigningStaysPrivate(View(), x, m.fate, m.text);
      attempts := attempts[x := AttemptAfter(attempts[x], m.fate, m.text)];
      url := if m.fate.Lost? then None else Some(SignedURL(key, m.text));
    }

    /** Looks up who asked and publishes report.completed; neither failure matters. */
    method Announce(x: nat, url: string, m: Moment) returns (ghost steps: seq<Step>)
      requires x in mine && x in attempts && Others(m) && attempts[x].stage.Announcing? && attempts[x].body.Requested?
      requires url == attempts[x].url
      modifies this, repo
      ensures View() == Run(Next, old(View()), steps) && Own(steps, x)
      ensures x in attempts && attempts[x] == AttemptAfter(old(attempts[x]), m.fate, m.text)
      ensures var b := attempts[x].body;
              m.fate.Applied() && b.job in repo.jobs && repo.jobs[b.job].company == b.company ==>
                bus != [] && bus[|bus| - 1] == Completed(b.job, b.company, repo.jobs[b.job].requestedBy, url)
    {
      Pause(m.others);
      RunSnoc(Next, old(View()), m.others, Advance(x, m.fate, m.text));
      steps := m.others + [Advance(x, m.fate, m.text)];
      var b := attempts[x].body;
      var job := repo.FindByID(b.company, b.job, Answered);
      if job.Some? && m.fate.Applied() { bus := bus + [Completed(b.job, b.company, job.value.requestedBy, url)]; }
      attempts := attempts[x := AttemptAfter(attempts[x], m.fate, m.text)];
    }

    /** Ack or Nack. */
    method Settle(x: nat, verdict: Broker.Verdict, m: Moment) returns (ghost steps: seq<Step>)
      requires x in mine && x in attempts && Others(m) && attempts[x].stage.Settling?
      requires verdict == Broker.Decide(attempts[x].stage.outcome, attempts[x].count)
      modifies this, repo
      ensures View() == Run(Next, old(View()), steps) && Own(steps, x)
      ensures x in attempts && attempts[x] == AttemptAfter(old(attempts[x]), m.fate, m.text)
    {
      Pause(m.others);
      RunSnoc(Next, old(View()), m.others, Advance(x, m.fate, m.text));
      steps := m.others + [Advance(x, m.fate, m.text)];
      if m.fate.Applied() { queue := Broker.Settled(queue, x, verdict); }
      attempts := attempts[x := AttemptAfter(attempts[x], m.fate, m.text)];
    }

    /** Upload the report and sign its URL. */
    method Store(x: nat, upload: Moment, sign: Moment) returns (url: Option<string>, ghost steps: seq<Step>)
      requires x in mine && x in attempts && Others(upload) && Others(sign)
      requires attempts[x].stage.Uploading? && attempts[x].body.Requested?
      modifies this, repo
      ensures View() == Run(Next, old(View()), steps) && Own(steps, x)
      ensures x in attempts && attempts[x].body == old(attempts[x].body) && attempts[x].count == old(attempts[x].count)
      ensures attempts[x].stage == if url.None? then FailStage(attempts[x].count) else Readying
      ensures url.None? <==> upload.fate.Lost? || sign.fate.Lost?
      ensures url.Some? ==> attempts[x].url == url.value
    {
      var b := attempts[x].body;
      var s3Key := Key(b.company, b.job);
      var failed;
      failed, steps := UploadJSON(x, s3Key, Report(b.job, b.company, b.kind, b.params), upload);
      if failed { return None, steps; }

      ghost var more;
      url, more := PresignGetURL(x, s3Key, sign);
      RunConcat(Next, old(View()), steps, more);
      steps := steps + more;
    }

    /** Marks the job ready with its signed URL and tells whoever asked. */
    method Publicise(x: nat, url: string, ready: Moment, announce: Moment)
      returns (failed: bool, ghost steps: seq<Step>)
      requires x in mine && x in attempts && Others(ready) && Others(announce)
      requires attempts[x].stage.Readying? && attempts[x].body.Requested? && url == attempts[x].url
      modifies this, repo
      ensures failed == ready.fate.Lost?
      ensures View() == Run(Next, old(View()), steps) && Own(steps, x)
      ensures x in attempts && attempts[x].body == old(attempts[x].body) && attempts[x].count == old(attempts[x].count)
      ensures attempts[x].stage == if failed then FailStage(attempts[x].count) else Settling(Broker.Processed)
    {
      failed, steps := MarkStatus(x, Ready, Key(attempts[x].body.company, attempts[x].body.job), url, "", ready);
      if failed { return; }

      ghost var more := Announce(x, url, announce);
      RunConcat(Next, old(View()), steps, more);
      steps := steps + more;
    }

    /** Marks the job, stores its report, marks it ready, and tells whoever asked. */
    method Generate(x: nat, mark: Moment, upload: Moment, sign: Moment, ready: Moment, announce: Moment)
      returns (failed: bool, ghost steps: seq<Step>)
      requires x in mine && x in attempts && Others(mark) && Others(upload) && Others(sign) && Others(ready) &&
               Others(announce)
      requires attempts[x].stage.Marking? && attempts[x].body.Requested?
      modifies this, repo
      ensures View() == Run(Next, old(View()), steps) && Own(steps, x)
      ensures x in attempts && attempts[x].body == old(attempts[x].body) && attempts[x].count == old(attempts[x].count)
      ensures failed <==> mark.fate.Lost? || upload.fate.Lost? || sign.fate.Lost? || ready.fate.Lost?
      ensures attempts[x].stage == if failed then FailStage(attempts[x].count) else Settling(Broker.Processed)
    {
      failed, steps := MarkStatus(x, Processing, "", "", "", mark);
      if failed { return; }

      var url;
      ghost var more;
      url, more := Store(x, upload, sign);
      RunConcat(Next, old(View()), steps, more);
      steps := steps + more;
      if url.None? { return true, steps; }

      failed, more := Publicise(x, url.value, ready, announce);
      RunConcat(Next, old(View()), steps, more);
      steps := steps + more;
    }

    /** After a failed generation: mark the job and give up at the retry limit, requeue below it. */
    method GiveUpOrRetry(x: nat, retryCount: nat, mark: Moment, settle: Moment)
      returns (verdict: Broker.Verdict, ghost steps: seq<Step>)
      requires x in mine && x in attempts && Others(mark) && Others(settle) && attempts[x].body.Requested?
      requires attempts[x].stage == FailStage(attempts[x].count) && retryCount == attempts[x].count
      modifies this, repo
      ensures View() == Run(Next, old(View()), steps) && Own(steps, x)
      ensures x in attempts && attempts[x].stage == Done(Broker.Failed)
      ensures verdict == if retryCount == 0 then Broker.Requeue(1) else if retryCount == 1 then Broker.Requeue(2)
                         else if retryCount == 2 then Broker.Requeue(4) else Broker.DeadLetter
    {
      Broker.VerdictsOneByOne(Broker.Failed, retryCount);
      if retryCount >= Broker.MAX_RETRIES {
        var ignored;
        ignored, steps := MarkStatus(x, Failed, "", "", attempts[x].error, mark);
        verdict := Broker.DeadLetter;
      } else {
        steps := [];
        verdict := Broker.Requeue(Broker.Pow2(retryCount));
      }
      ghost var more := Settle(x, verdict, settle);
      RunConcat(Next, old(View()), steps, more);
      steps := steps + more;
    }

    /** One delivery, from the message to its settlement. */
    method ProcessMessage(x: nat, header: Broker.DeathHeader, script: seq<Moment>)
      returns (verdict: Broker.Verdict, ghost steps: seq<Step>)
      requires x in mine && x in attempts && |script| == 7 && forall k | 0 <= k < 7 :: Others(script[k])
      requires if attempts[x].body.BadJson? then attempts[x].stage == Settling(Broker.Malformed)
               else attempts[x].stage == Marking
      requires Broker.HeaderCount(header) == attempts[x].count
      modifies this, repo
      ensures View() == Run(Next, old(View()), steps) && Own(steps, x)
      ensures x in attempts && attempts[x].stage.Done?
      ensures verdict
              == match attempts[x].stage.outcome
                 case Processed => Broker.Ack
                 case Malformed => Broker.DeadLetter
                 case Failed =>
                   var count := old(attempts[x].count);
                   if count == 0 then Broker.Requeue(1) else if count == 1 then Broker.Requeue(2)
                   else if count == 2 then Broker.Requeue(4) else Broker.DeadLetter
    {
      if attempts[x].body.BadJson? {
        steps := Settle(x, Broker.DeadLetter, script[6]);
        return Broker.DeadLetter, steps;
      }
      var retryCount := Broker.RetryCountFromHeaders(header);

      var failed;
      ghost var more;
      failed, steps := Generate(x, script[0], script[1], script[2], script[3], script[4]);
      if failed {
        verdict, more := GiveUpOrRetry(x, retryCount, script[5], script[6]);
      } else {
        verdict := Broker.Ack;
        more := Settle(x, verdict, script[6]);
      }
      RunConcat(Next, old(View()), steps, more);
      steps := steps + more;
    }
  }
}
