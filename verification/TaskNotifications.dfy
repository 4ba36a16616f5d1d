/** From an assignment to its notification: the task service's events, taken over by the notification consumers. */
module TaskNotifications {
  import opened Prelude
  import opened Runs
  import T = TaskProtocol
  import Lineage = TaskLineage
  import Model = TaskModel
  import N = Notifications

  // ---- what a task.assigned event says ----

  /** The event at place k of the bus is the announcement of a committed assignment, whose assignee belongs to the
      company of the task. */
  ghost predicate Announces(w: T.World, k: nat)
    requires k < |w.bus|
  {
    var c := w.bus[k].call;
    && c in w.flights && w.flights[c].committed && w.flights[c].req.Assign? && Lineage.Authorised(w, w.flights[c].req)
    && w.bus[k].event
         == T.TaskAssigned(w.flights[c].req.taskID, w.flights[c].req.assignedTo, w.flights[c].req.assignedBy)
  }

  ghost predicate AllAnnounce(w: T.World)
  {
    forall k | 0 <= k < |w.bus| && w.bus[k].event.TaskAssigned? :: Announces(w, k)
  }

  lemma AnnouncementSurvives(w: T.World, w': T.World, k: nat)
    requires Lineage.Grows(w, w') && k < |w.bus| && Announces(w, k) && k < |w'.bus| && w'.bus[k] == w.bus[k]
    ensures Announces(w', k)
  {
  }

  lemma PublishAnnounces(w: T.World, call: nat, fate: Fate)
    requires Lineage.Good(w) && call in w.flights && T.Posts(w.flights[call], fate) && w.flights[call].req.Assign?
    ensures var w' := T.Advanced(w, call, fate); |w'.bus| == |w.bus| + 1 && Announces(w', |w.bus|)
  {
    assert Lineage.FlightOk(w, w.flights[call]);
    Lineage.AdvanceGrows(w, call, fate);
  }

  lemma StillAnnounces(w: T.World, s: T.Step, k: nat)
    requires Lineage.Good(w) && AllAnnounce(w) && k < |T.Next(w, s).bus| && T.Next(w, s).bus[k].event.TaskAssigned?
    ensures Announces(T.Next(w, s), k)
  {
    Lineage.NextGrows(w, s);
    BusGrows(w, s);
    if k < |w.bus| { AnnouncementSurvives(w, T.Next(w, s), k); } else { PublishAnnounces(w, s.call, s.fate); }
  }

  lemma NextAnnounces(w: T.World, s: T.Step)
    requires Lineage.Good(w) && AllAnnounce(w)
    ensures AllAnnounce(T.Next(w, s))
  {
    forall k | 0 <= k < |T.Next(w, s).bus| && T.Next(w, s).bus[k].event.TaskAssigned?
      ensures Announces(T.Next(w, s), k)
    {
      StillAnnounces(w, s, k);
    }
  }

  lemma BusGrows(w: T.World, s: T.Step)
    ensures var w' := T.Next(w, s);
            if s.Advance? && s.call in w.flights && T.Posts(w.flights[s.call], s.fate)
            then w'.bus == w.bus + [T.Posted(s.call, T.EventOf(w.flights[s.call].pc.copy, w.flights[s.call].req))]
            else w'.bus == w.bus
  {
  }

  lemma {:induction false} RunAnnounces(now: int, steps: seq<T.Step>)
    ensures AllAnnounce(Run(T.Next, T.Start(now), steps))
  {
    if steps != [] {
      var before := steps[..|steps| - 1];
      RunAnnounces(now, before);
      Lineage.RunIsGood(now, before);
      NextAnnounces(Run(T.Next, T.Start(now), before), steps[|steps| - 1]);
    }
  }

  // ---- what the consumers make of it ----

  /** Event ids are made afresh for every event; the payload's text is the publisher's. */
  datatype Envelopes = Envelopes(id: nat -> string, text: nat -> string)
  {
    ghost predicate Fresh() { forall k: nat, l: nat | id(k) == id(l) :: k == l }
  }

  /** The message that the event at place k of the bus becomes. */
  function EnvelopeOf(w: T.World, e: Envelopes, k: nat): N.Body
    requires k < |w.bus| && w.bus[k].event.TaskAssigned? && w.bus[k].call in w.flights
  {
    var p := w.bus[k];
    N.Assigned(N.Event(e.id(k), p.event.assignedTo, w.flights[p.call].req.companyID, p.event.taskID, e.text(k)))
  }

  ghost predicate Carries(w: T.World, e: Envelopes, body: N.Body, k: nat)
  {
    k < |w.bus| && w.bus[k].event.TaskAssigned? && w.bus[k].call in w.flights && body == EnvelopeOf(w, e, k)
  }

  /** Every message that the consumers can read carries an event of the bus. */
  ghost predicate Relayed(w: T.World, e: Envelopes, bodies: map<nat, N.Body>)
  {
    e.Fresh() && forall m | m in bodies && bodies[m].Assigned? :: exists k: nat :: Carries(w, e, bodies[m], k)
  }

  lemma RelayedEventsAreTheirIds(w: T.World, e: Envelopes, v: N.World)
    requires Relayed(w, e, v.bodies)
    ensures N.EventsAreTheirIds(v)
  {
    forall m, n | m in v.bodies && n in v.bodies && v.bodies[m].Assigned? && v.bodies[n].Assigned?
                  && v.bodies[m].event.id == v.bodies[n].event.id
      ensures v.bodies[m] == v.bodies[n]
    {
      var k: nat :| Carries(w, e, v.bodies[m], k);
      var l: nat :| Carries(w, e, v.bodies[n], l);
      assert e.id(k) == e.id(l);
    }
  }

  /** The notification tells the assignee of a committed assignment, in the task's company. */
  ghost predicate TellsOf(w: T.World, note: N.Note, entry: Model.Entry)
  {
    && entry.req.Assign? && entry.req.taskID in w.past && entry in w.past[entry.req.taskID].commits
    && note.user == entry.req.assignedTo && note.company == w.past[entry.req.taskID].root.companyID
    && Lineage.Belongs(w.users, note.user, note.company)
    && note.message == "Task " + entry.req.taskID + " has been assigned to you"
  }

  lemma CarriedTellsOf(now: int, steps: seq<T.Step>, e: Envelopes, body: N.Body, k: nat) returns (entry: Model.Entry)
    requires Carries(Run(T.Next, T.Start(now), steps), e, body, k)
    ensures TellsOf(Run(T.Next, T.Start(now), steps), N.NoteFor(body.event), entry)
    ensures entry.call == Run(T.Next, T.Start(now), steps).bus[k].call
  {
    var w := Run(T.Next, T.Start(now), steps);
    RunAnnounces(now, steps);
    Lineage.RunRecords(now, steps);
    assert Announces(w, k);
    var c := w.bus[k].call;
    entry := Model.Entry(c, w.flights[c].req);
    assert entry in w.past[entry.req.taskID].commits;
  }

  /** Whatever happens to the tasks and to the consumers: every stored notification tells its user of a committed
      assignment to that user of a task of the user's own company. */
  lemma NotificationsTellOfAssignments(now: int, steps: seq<T.Step>, e: Envelopes,
                                       nilIsError: bool, stamp: nat -> nat, now': int, steps': seq<N.Step>, x: nat)
    returns (entry: Model.Entry)
    requires Relayed(Run(T.Next, T.Start(now), steps), e, Run(N.Next, N.Start(nilIsError, stamp, now'), steps').bodies)
    requires x in Run(N.Next, N.Start(nilIsError, stamp, now'), steps').rows
    ensures var v := Run(N.Next, N.Start(nilIsError, stamp, now'), steps');
            TellsOf(Run(T.Next, T.Start(now), steps), v.rows[x], entry)
  {
    var v := Run(N.Next, N.Start(nilIsError, stamp, now'), steps');
    N.RunKeeps(nilIsError, stamp, now', steps');
    assert N.RowAgrees(v, x) && v.attempts[x].body == v.bodies[v.attempts[x].message];
    var k: nat :| Carries(Run(T.Next, T.Start(now), steps), e, v.bodies[v.attempts[x].message], k);
    entry := CarriedTellsOf(now, steps, e, v.attempts[x].body, k);
  }

  /** And if the consumers have acknowledged the message of an assignment's event, its own assignee has been notified of
      it, or the event's key was taken in vain. */
  lemma AcknowledgedAssigneesAreNotified(now: int, steps: seq<T.Step>, e: Envelopes,
                                         nilIsError: bool, stamp: nat -> nat, now': int, steps': seq<N.Step>,
                                         m: nat, k: nat)
    returns (entry: Model.Entry)
    requires Relayed(Run(T.Next, T.Start(now), steps), e, Run(N.Next, N.Start(nilIsError, stamp, now'), steps').bodies)
    requires var v := Run(N.Next, N.Start(nilIsError, stamp, now'), steps');
             m in v.queue.acked && m in v.bodies && Carries(Run(T.Next, T.Start(now), steps), e, v.bodies[m], k)
    ensures entry.call == Run(T.Next, T.Start(now), steps).bus[k].call
    ensures var w, v := Run(T.Next, T.Start(now), steps), Run(N.Next, N.Start(nilIsError, stamp, now'), steps');
            || (exists x :: x in v.rows && TellsOf(w, v.rows[x], entry))
            || (!nilIsError && exists y :: N.TookInVain(v, y, e.id(k)))
  {
    var w, v := Run(T.Next, T.Start(now), steps), Run(N.Next, N.Start(nilIsError, stamp, now'), steps');
    RelayedEventsAreTheirIds(w, e, v);
    N.AckedMeansItsOwnNotification(nilIsError, stamp, now', steps', m);
    entry := CarriedTellsOf(now, steps, e, v.bodies[m], k);
  }
}
