/** What a report.completed event says is true: it names whoever asked for the report, and leads to that report. */
module ReportAnnouncements {
  import opened Prelude
  import opened Runs
  import opened Reports
  import Broker

  /** The step is the request that created the job's row. */
  predicate Asks(s: Step, id: string, company: string, requestedBy: string, kind: string, params: string)
  {
    && s.Submit? && s.fate.Applied() && s.job == id && s.company == company && s.requestedBy == requestedBy
    && s.kind == kind && s.params == params
  }

  /** Nobody changes what was asked for, or by whom, and a key once set stays set. */
  predicate RowLasts(j: Job, j': Job)
  {
    && j'.company == j.company && j'.requestedBy == j.requestedBy && j'.kind == j.kind && j'.params == j.params
    && (j.s3Key != "" ==> j'.s3Key != "")
  }

  lemma StepLeavesRow(w: World, s: Step, id: string)
    requires id in w.jobs
    ensures id in Next(w, s).jobs && RowLasts(w.jobs[id], Next(w, s).jobs[id])
  {
  }

  ghost predicate Lasting(w: World, w': World)
  {
    forall id | id in w.jobs :: id in w'.jobs && RowLasts(w.jobs[id], w'.jobs[id])
  }

  lemma NewRowsAreAskedFor(w: World, s: Step, id: string)
    requires id !in w.jobs && id in Next(w, s).jobs
    ensures s.Submit? && s.fate.Applied() && s.job == id
    ensures Next(w, s).jobs[id] == Job(s.company, s.requestedBy, s.kind, s.params, Queued, "", "", "")
  {
  }

  /** Every row was put there by a request, and still says who asked for what. */
  lemma {:induction false} RowsSayWhoAsked(stamp: nat -> nat, steps: seq<Step>, id: string) returns (i: nat)
    requires id in Run(Next, Start(stamp), steps).jobs
    ensures var j := Run(Next, Start(stamp), steps).jobs[id];
            i < |steps| && Asks(steps[i], id, j.company, j.requestedBy, j.kind, j.params)
  {
    var before, last := steps[..|steps| - 1], steps[|steps| - 1];
    var w := Run(Next, Start(stamp), before);
    if id in w.jobs {
      i := RowsSayWhoAsked(stamp, before, id);
      StepLeavesRow(w, last, id);
    } else {
      i := |steps| - 1;
      NewRowsAreAskedFor(w, last, id);
    }
  }

  /** The URL leads to the job's report. */
  predicate LeadsTo(url: string, company: string, job: string)
  {
    "https://" + (company + ("/reports/" + job + ".json")) <= url
  }

  lemma SignedURLsLeadToTheirKey(company: string, job: string, signature: string)
    ensures LeadsTo(SignedURL(Key(company, job), signature), company, job)
  {
  }

  predicate AttemptTells(w: World, a: Attempt)
  {
    a.body.Requested? ==>
      && (a.stage.Readying? || a.stage.Announcing? ==> LeadsTo(a.url, a.body.company, a.body.job))
      && (a.stage.Announcing? ==> a.body.job in w.jobs && w.jobs[a.body.job].s3Key != "")
  }

  /** A row that was never marked holds nothing but the request. */
  predicate RowTells(id: string, j: Job)
  {
    && (j.downloadURL != "" ==> LeadsTo(j.downloadURL, j.company, id))
    && (j.status.Queued? ==> j.s3Key == "" && j.downloadURL == "" && j.errorMsg == "")
  }

  predicate EventTells(w: World, c: Completed)
  {
    && c.job in w.jobs && c.company == w.jobs[c.job].company && c.requestedBy == w.jobs[c.job].requestedBy
    && w.jobs[c.job].s3Key != "" && LeadsTo(c.url, c.company, c.job)
  }

  ghost predicate AllTell(w: World)
  {
    && (forall x | x in w.attempts :: AttemptTells(w, w.attempts[x]))
    && (forall id | id in w.jobs :: RowTells(id, w.jobs[id]))
    && (forall k | 0 <= k < |w.bus| :: EventTells(w, w.bus[k]))
  }

  lemma StepIsLasting(w: World, s: Step)
    ensures Lasting(w, Next(w, s))
  {
    forall id | id in w.jobs ensures id in Next(w, s).jobs && RowLasts(w.jobs[id], Next(w, s).jobs[id]) {
      StepLeavesRow(w, s, id);
    }
  }

  lemma OwnAttemptTells(w: World, x: nat, fate: Fate, text: string)
    requires RowsAgree(w) && x in w.attempts && AttemptTells(w, w.attempts[x])
    ensures AttemptTells(Advanced(w, x, fate, text), AttemptAfter(w.attempts[x], fate, text))
  {
    var a := w.attempts[x];
    assert AttemptAgrees(w, a);
    if a.stage.Signing? && a.body.Requested? { SignedURLsLeadToTheirKey(a.body.company, a.body.job, text); }
  }

  lemma RowTellsAfter(w: World, x: nat, fate: Fate, text: string, id: string)
    requires RowsAgree(w) && x in w.attempts && AttemptTells(w, w.attempts[x]) && id in w.jobs
    requires RowTells(id, w.jobs[id])
    ensures id in Advanced(w, x, fate, text).jobs && RowTells(id, Advanced(w, x, fate, text).jobs[id])
  {
    assert AttemptAgrees(w, w.attempts[x]);
  }

  lemma NewEventTells(w: World, x: nat, fate: Fate, text: string)
    requires x in w.attempts && AttemptTells(w, w.attempts[x]) && Lasting(w, Advanced(w, x, fate, text))
    ensures var w' := Advanced(w, x, fate, text);
            w'.bus == w.bus ||
              (|w'.bus| == |w.bus| + 1 && w'.bus[..|w.bus|] == w.bus && EventTells(w', w'.bus[|w.bus|]))
  {
  }

  lemma AttemptsTellNext(w: World, s: Step, y: nat)
    requires RowsAgree(w) && AllTell(w) && Lasting(w, Next(w, s)) && y in Next(w, s).attempts
    ensures AttemptTells(Next(w, s), Next(w, s).attempts[y])
  {
    if y in w.attempts { assert AttemptTells(w, w.attempts[y]); }
    if s.Advance? && s.attempt == y && y in w.attempts { OwnAttemptTells(w, y, s.fate, s.text); }
  }

  lemma RowsTellNext(w: World, s: Step, id: string)
    requires RowsAgree(w) && AllTell(w) && id in Next(w, s).jobs
    ensures RowTells(id, Next(w, s).jobs[id])
  {
    if id !in w.jobs {
      NewRowsAreAskedFor(w, s, id);
    } else if s.Advance? && s.attempt in w.attempts {
      RowTellsAfter(w, s.attempt, s.fate, s.text, id);
    }
  }

  lemma EventsTellNext(w: World, s: Step, k: nat)
    requires AllTell(w) && Lasting(w, Next(w, s)) && k < |Next(w, s).bus|
    ensures EventTells(Next(w, s), Next(w, s).bus[k])
  {
    if s.Advance? && s.attempt in w.attempts { NewEventTells(w, s.attempt, s.fate, s.text); }
    if k < |w.bus| { assert EventTells(w, w.bus[k]); }
  }

  lemma StepsTell(w: World, s: Step)
    requires RowsAgree(w) && AllTell(w)
    ensures AllTell(Next(w, s))
  {
    var w' := Next(w, s);
    StepIsLasting(w, s);
    forall id | id in w'.jobs ensures RowTells(id, w'.jobs[id]) { RowsTellNext(w, s, id); }
    forall y | y in w'.attempts ensures AttemptTells(w', w'.attempts[y]) { AttemptsTellNext(w, s, y); }
    forall k | 0 <= k < |w'.bus| ensures EventTells(w', w'.bus[k]) { EventsTellNext(w, s, k); }
  }

  lemma {:induction false} RunsTell(stamp: nat -> nat, steps: seq<Step>)
    ensures AllTell(Run(Next, Start(stamp), steps))
  {
    if steps != [] {
      var before := steps[..|steps| - 1];
      RunsTell(stamp, before);
      RunKeepsRows(Start(stamp), before);
      StepsTell(Run(Next, Start(stamp), before), steps[|steps| - 1]);
    }
  }

  /** Under redelivery, any number of consumers, crashes and lost replies: every report.completed event names the
      company and the person of a request made before it for that job, the report asked for is stored under the key
      the row then has, and the event's URL leads there. */
  lemma CompletedNamesWhoeverAsked(stamp: nat -> nat, steps: seq<Step>, k: nat) returns (i: nat)
    requires k < |Run(Next, Start(stamp), steps).bus|
    ensures var w := Run(Next, Start(stamp), steps);
            var c := w.bus[k];
            var key := c.company + ("/reports/" + c.job + ".json");
            && c.job in w.jobs
            && var j := w.jobs[c.job];
               && i < |steps| && Asks(steps[i], c.job, c.company, c.requestedBy, j.kind, j.params)
               && j.s3Key == key && key in w.objects && w.objects[key] == Report(c.job, c.company, j.kind, j.params)
               && "https://" + key <= c.url
  {
    var w := Run(Next, Start(stamp), steps);
    RunsTell(stamp, steps);
    assert EventTells(w, w.bus[k]);
    i := RowsSayWhoAsked(stamp, steps, w.bus[k].job);
    RunKeepsRows(Start(stamp), steps);
    assert JobAgrees(w, w.bus[k].job, w.jobs[w.bus[k].job]);
  }

  /** A row is queued only as long as it holds nothing but the request; and a row with a download URL has its own
      report's. */
  lemma RowsAreQueuedUntilMarked(stamp: nat -> nat, steps: seq<Step>, id: string)
    requires id in Run(Next, Start(stamp), steps).jobs
    ensures var j := Run(Next, Start(stamp), steps).jobs[id];
            && (j.status.Queued? ==> j == Job(j.company, j.requestedBy, j.kind, j.params, Queued, "", "", ""))
            && (j.downloadURL != "" ==> "https://" + (j.company + ("/reports/" + id + ".json")) <= j.downloadURL)
  {
    RunsTell(stamp, steps);
    assert RowTells(id, Run(Next, Start(stamp), steps).jobs[id]);
  }
}
