/** Report jobs: a request stores a queued job and posts its message; consumers take deliveries, mark the job, upload
    the report, sign its download URL, mark the job ready or failed, and settle. */
module Reports {
  import opened Prelude
  import opened Runs
  import Broker

  datatype Status = Queued | Processing | Ready | Failed

  datatype Job = Job(company: string, requestedBy: string, kind: string, params: string,
                     status: Status, s3Key: string, downloadURL: string, errorMsg: string)

  /** The payload of a report.requested message. */
  datatype Body = BadJson | Requested(job: string, company: string, kind: string, params: string)

  /** What is uploaded. */
  datatype Report = Report(job: string, company: string, kind: string, params: string)

  datatype Completed = Completed(job: string, company: string, requestedBy: string, url: string)

  /** Stopped is a consumer that died; a dropped delivery's consumer may also live on. */
  datatype Stage =
    | Marking | Uploading | Signing | Readying | Announcing | MarkingFailed
    | Settling(outcome: Broker.Outcome) | Done(outcome: Broker.Outcome) | Stopped

  datatype Attempt = Attempt(message: nat, count: nat, body: Body, stage: Stage, url: string, error: string)

  datatype World = World(jobs: map<string, Job>, objects: map<string, Report>, bodies: map<nat, Body>,
                         attempts: map<nat, Attempt>, queue: Broker.Queue, bus: seq<Completed>)

  /** text is whatever the remote side chooses: a URL's signature or an error's text. */
  datatype Step =
    | Submit(job: string, company: string, requestedBy: string, kind: string, params: string, fate: Fate)
    | Post(message: nat, job: string, fate: Fate)
    | PostJunk(message: nat)
    | Deliver(attempt: nat, delivered: nat)
    | Advance(attempt: nat, fate: Fate, text: string)
    | Drop(attempt: nat, stops: bool)

  function Start(stamp: nat -> nat): World
  {
    World(map[], map[], map[], map[], Broker.NewQueue(stamp), [])
  }

  /** All that matters here of an id's form. */
  predicate Uuid(id: string) { '/' !in id }

  function Key(company: string, job: string): string { company + ("/reports/" + job + ".json") }

  /** A key belongs to one job. */
  lemma KeyTellsJob(company: string, job: string, company': string, job': string)
    requires Uuid(company) && Uuid(company') && Key(company, job) == Key(company', job')
    ensures company == company' && job == job'
  {
    CompanyEndsAtTheSlash(company, job, company', job');
    CompanyEndsAtTheSlash(company', job', company, job);
    var n := |company|;
    assert company == Key(company, job)[..n] && company' == Key(company', job')[..n];
    var rest, rest' := "/reports/" + job + ".json", "/reports/" + job' + ".json";
    assert rest == Key(company, job)[n..] && rest' == Key(company', job')[n..];
    assert job == rest[9..|rest| - 5] && job' == rest'[9..|rest'| - 5];
  }

  lemma CompanyEndsAtTheSlash(company: string, job: string, company': string, job': string)
    requires Uuid(company') && Key(company, job) == Key(company', job')
    ensures |company'| <= |company|
  {
    var n := |company|;
    assert Key(company, job)[n] == '/';
    assert forall k | 0 <= k < |company'| :: Key(company', job')[k] == company'[k] && company'[k] in company';
  }

  function SignedURL(key: string, signature: string): string { "https://" + key + "?" + signature }

  function ErrorText(stage: Stage, cause: string): string
  {
    (match stage
     case Marking => "marking processing: "
     case Uploading => "uploading report: "
     case Signing => "presigning download url: "
     case _ => "marking ready: ") + cause
  }

  // ---- the repository ----

  /** The row with its status set and each other column only if the given text is not empty. */
  function Updated(j: Job, status: Status, s3Key: string, downloadURL: string, errorMsg: string): Job
  {
    j.(status := status,
       s3Key := if s3Key != "" then s3Key else j.s3Key,
       downloadURL := if downloadURL != "" then downloadURL else j.downloadURL,
       errorMsg := if errorMsg != "" then errorMsg else j.errorMsg)
  }

  /** Updating an id that is not there changes nothing, and is not an error. */
  function UpdateStatus(jobs: map<string, Job>, id: string, status: Status, s3Key: string, downloadURL: string,
                        errorMsg: string)
    : map<string, Job>
  {
    if id in jobs then jobs[id := Updated(jobs[id], status, s3Key, downloadURL, errorMsg)] else jobs
  }

  // ---- steps of a consumer ----

  function FailStage(count: nat): Stage
  {
    if count >= Broker.MAX_RETRIES then MarkingFailed else Settling(Broker.Failed)
  }

  function Failing(a: Attempt, text: string): Attempt
  {
    a.(stage := FailStage(a.count), error := ErrorText(a.stage, text))
  }

  function AttemptAfter(a: Attempt, fate: Fate, text: string): Attempt
  {
    match a.stage
    case Marking => if fate.Lost? then Failing(a, text) else a.(stage := Uploading)
    case Uploading => if fate.Lost? then Failing(a, text) else a.(stage := Signing)
    case Signing =>
      if fate.Lost? || !a.body.Requested? then Failing(a, text)
      else a.(stage := Readying, url := SignedURL(Key(a.body.company, a.body.job), text))
    case Readying => if fate.Lost? then Failing(a, text) else a.(stage := Announcing)
    case Announcing => a.(stage := Settling(Broker.Processed))
    case MarkingFailed => a.(stage := Settling(Broker.Failed))
    case Settling(outcome) => a.(stage := Done(outcome))
    case Done(_) => a
    case Stopped => a
  }

  predicate WritesStatus(stage: Stage) { stage.Marking? || stage.Readying? || stage.MarkingFailed? }

  function JobsAfter(jobs: map<string, Job>, a: Attempt, fate: Fate): map<string, Job>
  {
    if !fate.Applied() || !a.body.Requested? then jobs
    else if a.stage.Marking? then UpdateStatus(jobs, a.body.job, Processing, "", "", "")
    else if a.stage.Readying? then UpdateStatus(jobs, a.body.job, Ready, Key(a.body.company, a.body.job), a.url, "")
    else if a.stage.MarkingFailed? then UpdateStatus(jobs, a.body.job, Failed, "", "", a.error)
    else jobs
  }

  function ObjectsAfter(objects: map<string, Report>, a: Attempt, fate: Fate): map<string, Report>
  {
    if a.stage.Uploading? && a.body.Requested? && fate.Applied()
    then objects[Key(a.body.company, a.body.job) := Report(a.body.job, a.body.company, a.body.kind, a.body.params)]
    else objects
  }

  /** Announcing needs the job's row; failing to read it or to publish is ignored. */
  function BusAfter(w: World, a: Attempt, fate: Fate): seq<Completed>
  {
    if && a.stage.Announcing? && a.body.Requested? && fate.Applied()
       && a.body.job in w.jobs && w.jobs[a.body.job].company == a.body.company
    then w.bus + [Completed(a.body.job, a.body.company, w.jobs[a.body.job].requestedBy, a.url)]
    else w.bus
  }

  function QueueAfter(w: World, x: nat, a: Attempt, fate: Fate): Broker.Queue
  {
    if a.stage.Settling? && fate.Applied() then Broker.Settled(w.queue, x, Broker.Decide(a.stage.outcome, a.count))
    else w.queue
  }

  function Advanced(w: World, x: nat, fate: Fate, text: string): World
    requires x in w.attempts
  {
    var a := w.attempts[x];
    w.(jobs := JobsAfter(w.jobs, a, fate), objects := ObjectsAfter(w.objects, a, fate), bus := BusAfter(w, a, fate),
       queue := QueueAfter(w, x, a, fate), attempts := w.attempts[x := AttemptAfter(a, fate, text)])
  }

  function NewAttempt(w: World, x: nat, m: nat): Attempt
    requires m in w.bodies
  {
    var queue := Broker.Delivered(w.queue, x, m);
    Attempt(m, if x in queue.deliveries then queue.deliveries[x].count else 0, w.bodies[m],
            if w.bodies[m].BadJson? then Settling(Broker.Malformed) else Marking, "", "")
  }

  function BodyFor(id: string, j: Job): Body { Requested(id, j.company, j.kind, j.params) }

  predicate CanDeliver(w: World, x: nat, m: nat)
  {
    m in w.queue.ready && m in w.queue.ledgers && m in w.bodies && x !in w.queue.deliveries
  }

  function Posted(w: World, m: nat, body: Body): World
  {
    if m in w.bodies then w else w.(bodies := w.bodies[m := body], queue := Broker.Published(w.queue, m))
  }

  function StoppedIn(attempts: map<nat, Attempt>, x: nat): map<nat, Attempt>
  {
    if x in attempts then attempts[x := attempts[x].(stage := Stopped)] else attempts
  }

  function Next(w: World, s: Step): World
  {
    match s
    case Submit(id, company, requestedBy, kind, params, fate) =>
      if id in w.jobs || !Uuid(company) || !fate.Applied() then w
      else w.(jobs := w.jobs[id := Job(company, requestedBy, kind, params, Queued, "", "", "")])
    case Post(m, id, fate) =>
      if id in w.jobs && fate.Applied() then Posted(w, m, BodyFor(id, w.jobs[id])) else w
    case PostJunk(m) => Posted(w, m, BadJson)
    case Deliver(x, m) =>
      if CanDeliver(w, x, m)
      then w.(attempts := w.attempts[x := NewAttempt(w, x, m)], queue := Broker.Delivered(w.queue, x, m))
      else w
    case Advance(x, fate, text) => if x in w.attempts then Advanced(w, x, fate, text) else w
    case Drop(x, stops) =>
      w.(queue := Broker.Dropped(w.queue, x), attempts := if stops then StoppedIn(w.attempts, x) else w.attempts)
  }

  // ---- what every reachable state keeps ----

  /** A row is ready only with its own report stored under its own key and a URL to it, and failed only with a reason;
      a key once set is the job's own and its report is stored. */
  predicate JobAgrees(w: World, id: string, j: Job)
  {
    && Uuid(j.company)
    && (j.s3Key != "" ==> j.s3Key == Key(j.company, id) && HasReport(w, id, j))
    && (j.status.Ready? ==> j.s3Key != "" && j.downloadURL != "")
    && (j.status.Failed? ==> j.errorMsg != "")
  }

  predicate HasReport(w: World, id: string, j: Job)
  {
    Key(j.company, id) in w.objects && w.objects[Key(j.company, id)] == Report(id, j.company, j.kind, j.params)
  }

  /** The row a message asks about is there, and the message says what the row says. */
  predicate BodyAgrees(jobs: map<string, Job>, body: Body)
  {
    body.Requested? ==> body.job in jobs && BodyFor(body.job, jobs[body.job]) == body
  }

  predicate AttemptAgrees(w: World, a: Attempt)
  {
    && BodyAgrees(w.jobs, a.body)
    && (a.body.BadJson? ==> a.stage.Stopped? || ((a.stage.Settling? || a.stage.Done?) && a.stage.outcome.Malformed?))
    && (a.stage.Signing? || a.stage.Readying? || a.stage.Announcing? ==>
          a.body.Requested? && a.body.job in w.jobs && HasReport(w, a.body.job, w.jobs[a.body.job]))
    && (a.stage.Readying? || a.stage.Announcing? ==> a.url != "")
    && (a.stage.MarkingFailed? ==> a.error != "")
  }

  ghost predicate RowsAgree(w: World)
  {
    && (forall id | id in w.jobs :: JobAgrees(w, id, w.jobs[id]))
    && (forall m | m in w.bodies :: BodyAgrees(w.jobs, w.bodies[m]))
    && (forall x | x in w.attempts :: AttemptAgrees(w, w.attempts[x]))
  }

  /** Nothing that attempts and messages rely on gets lost. */
  ghost predicate RowsGrow(w: World, w': World)
  {
    forall id | id in w.jobs ::
      && id in w'.jobs && BodyFor(id, w'.jobs[id]) == BodyFor(id, w.jobs[id])
      && (w.jobs[id].s3Key != "" ==> w'.jobs[id].s3Key == w.jobs[id].s3Key)
      && (HasReport(w, id, w.jobs[id]) ==> HasReport(w', id, w'.jobs[id]))
  }

  lemma AttemptStillAgrees(w: World, w': World, a: Attempt)
    requires AttemptAgrees(w, a) && RowsGrow(w, w')
    ensures AttemptAgrees(w', a)
  {
  }

  lemma UploadLeavesOtherReports(w: World, a: Attempt, fate: Fate, id: string)
    requires id in w.jobs && Uuid(w.jobs[id].company) && HasReport(w, id, w.jobs[id])
    requires a.body.Requested? && BodyAgrees(w.jobs, a.body) && Uuid(a.body.company)
    ensures HasReport(w.(objects := ObjectsAfter(w.objects, a, fate)), id, w.jobs[id])
  {
    if Key(a.body.company, a.body.job) == Key(w.jobs[id].company, id) {
      KeyTellsJob(a.body.company, a.body.job, w.jobs[id].company, id);
    }
  }

  lemma AdvanceGrowsRows(w: World, x: nat, fate: Fate, text: string)
    requires RowsAgree(w) && x in w.attempts
    ensures RowsGrow(w, Advanced(w, x, fate, text))
  {
    var a := w.attempts[x];
    var w' := Advanced(w, x, fate, text);
    assert AttemptAgrees(w, a);
    forall id | id in w.jobs
      ensures && id in w'.jobs && BodyFor(id, w'.jobs[id]) == BodyFor(id, w.jobs[id])
              && (w.jobs[id].s3Key != "" ==> w'.jobs[id].s3Key == w.jobs[id].s3Key)
              && (HasReport(w, id, w.jobs[id]) ==> HasReport(w', id, w'.jobs[id]))
    {
      assert JobAgrees(w, id, w.jobs[id]);
      if HasReport(w, id, w.jobs[id]) && a.body.Requested? {
        assert JobAgrees(w, a.body.job, w.jobs[a.body.job]);
        UploadLeavesOtherReports(w, a, fate, id);
      }
    }
  }

  lemma AdvanceKeepsOwnAttempt(w: World, x: nat, fate: Fate, text: string)
    requires RowsAgree(w) && x in w.attempts && RowsGrow(w, Advanced(w, x, fate, text))
    ensures AttemptAgrees(Advanced(w, x, fate, text), AttemptAfter(w.attempts[x], fate, text))
  {
    var a := w.attempts[x];
    assert AttemptAgrees(w, a);
    if a.stage.Uploading? && a.body.Requested? && fate.Applied() {
      assert HasReport(Advanced(w, x, fate, text), a.body.job, w.jobs[a.body.job]);
    }
  }

  lemma AdvanceKeepsJob(w: World, x: nat, fate: Fate, text: string, id: string)
    requires RowsAgree(w) && x in w.attempts && RowsGrow(w, Advanced(w, x, fate, text)) && id in w.jobs
    ensures JobAgrees(Advanced(w, x, fate, text), id, Advanced(w, x, fate, text).jobs[id])
  {
    assert JobAgrees(w, id, w.jobs[id]) && AttemptAgrees(w, w.attempts[x]);
  }

  lemma AdvanceKeepsRows(w: World, x: nat, fate: Fate, text: string)
    requires RowsAgree(w) && x in w.attempts
    ensures RowsAgree(Advanced(w, x, fate, text)) && RowsGrow(w, Advanced(w, x, fate, text))
  {
    var w' := Advanced(w, x, fate, text);
    AdvanceGrowsRows(w, x, fate, text);
    forall id | id in w'.jobs
      ensures JobAgrees(w', id, w'.jobs[id])
    {
      AdvanceKeepsJob(w, x, fate, text, id);
    }
    forall y | y in w'.attempts
      ensures AttemptAgrees(w', w'.attempts[y])
    {
      if y == x { AdvanceKeepsOwnAttempt(w, x, fate, text); } else { AttemptStillAgrees(w, w', w.attempts[y]); }
    }
    forall m | m in w'.bodies
      ensures BodyAgrees(w'.jobs, w'.bodies[m])
    {
      assert BodyAgrees(w.jobs, w.bodies[m]);
    }
  }

  lemma NextKeepsRows(w: World, s: Step)
    requires RowsAgree(w)
    ensures RowsAgree(Next(w, s)) && RowsGrow(w, Next(w, s))
  {
    if s.Advance? {
      if s.attempt in w.attempts { AdvanceKeepsRows(w, s.attempt, s.fate, s.text); }
    } else {
      OtherStepKeepsRows(w, s);
    }
  }

  lemma OtherStepGrowsRows(w: World, s: Step)
    requires !s.Advance?
    ensures RowsGrow(w, Next(w, s))
  {
  }

  lemma OtherStepKeepsAttempts(w: World, s: Step)
    requires RowsAgree(w) && !s.Advance? && RowsGrow(w, Next(w, s))
    ensures forall y | y in Next(w, s).attempts :: AttemptAgrees(Next(w, s), Next(w, s).attempts[y])
  {
    forall y | y in Next(w, s).attempts
      ensures AttemptAgrees(Next(w, s), Next(w, s).attempts[y])
    {
      if y in w.attempts { AttemptStillAgrees(w, Next(w, s), w.attempts[y]); }
    }
  }

  lemma OtherStepKeepsRows(w: World, s: Step)
    requires RowsAgree(w) && !s.Advance?
    ensures RowsAgree(Next(w, s)) && RowsGrow(w, Next(w, s))
  {
    OtherStepGrowsRows(w, s);
    OtherStepKeepsAttempts(w, s);
    assert forall id | id in w.jobs :: JobAgrees(w, id, w.jobs[id]);
    assert forall m | m in w.bodies :: BodyAgrees(w.jobs, w.bodies[m]);
  }

  lemma {:induction false} RunKeepsRows(w: World, steps: seq<Step>)
    requires RowsAgree(w)
    ensures RowsAgree(Run(Next, w, steps)) && RowsGrow(w, Run(Next, w, steps))
  {
    if steps != [] {
      RunKeepsRows(w, steps[..|steps| - 1]);
      NextKeepsRows(Run(Next, w, steps[..|steps| - 1]), steps[|steps| - 1]);
    }
  }

  /** Under redelivery, any number of consumers, crashes and lost replies, in every reachable state: a ready job has
      the key company/reports/job.json, under which its own report is stored, and a download URL; a failed job has an
      error message. */
  lemma ReadyJobsHaveTheirReport(stamp: nat -> nat, steps: seq<Step>, id: string)
    requires id in Run(Next, Start(stamp), steps).jobs
    ensures var w := Run(Next, Start(stamp), steps);
            var j := w.jobs[id];
            var key := j.company + ("/reports/" + id + ".json");
            && (j.status.Ready? ==>
                  && j.s3Key == key && j.downloadURL != ""
                  && key in w.objects && w.objects[key] == Report(id, j.company, j.kind, j.params))
            && (j.status.Failed? ==> j.errorMsg != "")
  {
    RunKeepsRows(Start(stamp), steps);
    assert JobAgrees(Run(Next, Start(stamp), steps), id, Run(Next, Start(stamp), steps).jobs[id]);
  }

  /** A job's key, once set, never changes, and its report stays. */
  lemma KeysNeverChange(stamp: nat -> nat, steps: seq<Step>, more: seq<Step>, id: string)
    requires var w := Run(Next, Start(stamp), steps); id in w.jobs && w.jobs[id].s3Key != ""
    ensures var w, w' := Run(Next, Start(stamp), steps), Run(Next, Start(stamp), steps + more);
            id in w'.jobs && w'.jobs[id].s3Key == w.jobs[id].s3Key && HasReport(w', id, w'.jobs[id])
  {
    var w := Run(Next, Start(stamp), steps);
    RunConcat(Next, Start(stamp), steps, more);
    RunKeepsRows(Start(stamp), steps);
    RunKeepsRows(w, more);
    assert JobAgrees(w, id, w.jobs[id]);
  }
}
