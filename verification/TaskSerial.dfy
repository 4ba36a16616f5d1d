/** While no lock overruns, concurrent assignments of a task behave like atomic ones in lock order. */
module TaskSerial {
  import opened Prelude
  import opened Runs
  import opened KeyStore
  import opened TaskModel
  import opened TaskProtocol
  import opened TaskLineage
  import opened TaskLock

  /** small is obtained from large by leaving elements out. */
  predicate Subsequence<T(==)>(small: seq<T>, large: seq<T>)
  {
    small == [] ||
    (large != [] &&
     var rest := large[..|large| - 1];
     (small[|small| - 1] == large[|large| - 1] && Subsequence(small[..|small| - 1], rest)) || Subsequence(small, rest))
  }

  lemma SubsequenceSkip<T>(small: seq<T>, large: seq<T>, x: T)
    requires Subsequence(small, large)
    ensures Subsequence(small, large + [x])
  {
    assert (large + [x])[..|large|] == large;
  }

  lemma SubsequenceTake<T>(small: seq<T>, large: seq<T>, x: T)
    requires Subsequence(small, large)
    ensures Subsequence(small + [x], large + [x])
  {
    assert (large + [x])[..|large|] == large;
    assert (small + [x])[..|small|] == small;
  }

  function Commits(w: World, t: string): seq<Entry>
  {
    if t in w.past then w.past[t].commits else []
  }

  /** The task.assigned events about t on the bus, oldest first. */
  function AssignedPosts(bus: seq<Posted>, t: string): seq<Posted>
  {
    if bus == [] then []
    else
      var last := bus[|bus| - 1];
      AssignedPosts(bus[..|bus| - 1], t) + if last.event.TaskAssigned? && last.event.taskID == t then [last] else []
  }

  lemma AssignedPostsSnoc(bus: seq<Posted>, t: string, p: Posted)
    ensures AssignedPosts(bus + [p], t)
            == AssignedPosts(bus, t) + if p.event.TaskAssigned? && p.event.taskID == t then [p] else []
  {
    assert (bus + [p])[..|bus|] == bus;
  }

  function PostOf(e: Entry): Posted
    requires e.req.Assign?
  {
    Posted(e.call, TaskAssigned(e.req.taskID, e.req.assignedTo, e.req.assignedBy))
  }

  /** The event each commit would announce, in commit order. */
  function PostsOf(commits: seq<Entry>): seq<Posted>
    requires forall k | 0 <= k < |commits| :: commits[k].req.Assign?
  {
    seq(|commits|, k requires 0 <= k < |commits| => PostOf(commits[k]))
  }

  ghost predicate AssignOnly(w: World, t: string)
  {
    forall c | c in w.flights && w.flights[c].req.taskID == t :: w.flights[c].req.Assign? || w.flights[c].req.Create?
  }

  ghost predicate Exclusive(w: World, t: string)
  {
    forall a, b | IsInside(w, a, t) && IsInside(w, b, t) :: a == b
  }

  /** Lock claims are numbered; commits happen in the order of the claims they were made under. */
  ghost predicate InLockOrder(w: World, t: string)
  {
    var commits := Commits(w, t);
    && (forall k | 0 <= k < |commits| :: commits[k].call in w.flights && w.flights[commits[k].call].committed)
    && (forall i, j | 0 <= i < j < |commits| :: w.flights[commits[i].call].ticket < w.flights[commits[j].call].ticket)
  }

  ghost predicate TicketsOk(w: World, t: string)
  {
    var commits := Commits(w, t);
    && InLockOrder(w, t)
    && (forall k | 0 <= k < |commits| :: w.flights[commits[k].call].ticket <= w.tickets)
    && (forall c, k | IsInside(w, c, t) && !w.flights[c].committed && 0 <= k < |commits| ::
          w.flights[commits[k].call].ticket < w.flights[c].ticket)
    && (forall c | IsInside(w, c, t) :: w.flights[c].ticket <= w.tickets)
  }

  ghost predicate PostsOk(w: World, t: string)
  {
    var commits := Commits(w, t);
    && (forall k | 0 <= k < |commits| :: commits[k].req.Assign?)
    && Subsequence(AssignedPosts(w.bus, t), PostsOf(commits))
    && (forall c | IsInside(w, c, t) && w.flights[c].pc.Publishing? ::
          && commits != [] && commits[|commits| - 1] == Entry(c, w.flights[c].req)
          && Subsequence(AssignedPosts(w.bus, t), PostsOf(commits[..|commits| - 1])))
  }

  lemma PostsOfSnoc(commits: seq<Entry>, e: Entry)
    requires e.req.Assign? && forall k | 0 <= k < |commits| :: commits[k].req.Assign?
    ensures PostsOf(commits + [e]) == PostsOf(commits) + [PostOf(e)]
  {
  }

  // ---- the three commands that matter ----

  /** After a claim by an uncommitted call, only that call may be newly inside, with the newest number. */
  ghost predicate JustClaimed(w: World, w': World, call: nat, t: string)
  {
    && Commits(w', t) == Commits(w, t) && w.tickets <= w'.tickets
    && (forall c | c in w.flights && c != call :: c in w'.flights && w'.flights[c] == w.flights[c])
    && (forall c | IsInside(w', c, t) && c != call :: IsInside(w, c, t) && w'.flights[c] == w.flights[c])
    && call in w.flights && !w.flights[call].committed
    && (IsInside(w', call, t) ==> w'.flights[call].ticket == w'.tickets && w.tickets < w'.tickets)
  }

  lemma ClaimShape(w: World, call: nat, fate: Fate, t: string)
    requires call in w.flights && w.flights[call].pc.Claiming? && !w.flights[call].committed
    ensures JustClaimed(w, Advanced(w, call, fate), call, t)
  {
    assert Commits(Advanced(w, call, fate), t) == Commits(w, t);
  }

  lemma JustClaimedKeepsTickets(w: World, w': World, call: nat, t: string)
    requires TicketsOk(w, t) && JustClaimed(w, w', call, t)
    ensures TicketsOk(w', t)
  {
    assert forall k | 0 <= k < |Commits(w, t)| :: Commits(w, t)[k].call != call;
  }

  /** A save of t by an uncommitted assign call that is alone in the critical section. */
  ghost predicate OwnSave(w: World, call: nat, fate: Fate, t: string)
  {
    && call in w.flights && w.flights[call].pc.Saving? && !w.flights[call].committed && fate.Applied()
    && w.flights[call].req.taskID == t && w.flights[call].req.Assign? && t in w.past
    && (forall c | IsInside(w, c, t) :: c == call)
  }

  /** After a save on t its saver is still the only call inside, and the last committer. */
  ghost predicate JustSaved(w: World, w': World, call: nat, t: string)
    requires call in w.flights
  {
    && (forall c | IsInside(w', c, t) :: c == call)
    && Commits(w', t) == Commits(w, t) + [Entry(call, w.flights[call].req)]
    && w'.bus == w.bus && w'.tickets == w.tickets
    && (forall c :: c in w'.flights <==> c in w.flights)
    && (forall c | c in w.flights && c != call :: w'.flights[c] == w.flights[c])
    && w'.flights[call].committed && w'.flights[call].ticket == w.flights[call].ticket
    && w'.flights[call].req == w.flights[call].req && w.flights[call].req.Assign?
  }

  lemma OwnSaveShape(w: World, call: nat, fate: Fate, t: string)
    requires OwnSave(w, call, fate, t)
    ensures JustSaved(w, Advanced(w, call, fate), call, t)
  {
    assert forall c | c != call :: IsInside(Advanced(w, call, fate), c, t) ==> IsInside(w, c, t);
  }

  lemma JustSavedKeepsTickets(w: World, w': World, call: nat, t: string)
    requires TicketsOk(w, t) && call in w.flights && JustSaved(w, w', call, t)
    requires IsInside(w, call, t) && !w.flights[call].committed
    ensures TicketsOk(w', t)
  {
  }

  lemma JustSavedKeepsPosts(w: World, w': World, call: nat, t: string)
    requires PostsOk(w, t) && call in w.flights && JustSaved(w, w', call, t)
    ensures PostsOk(w', t)
  {
    var e := Entry(call, w.flights[call].req);
    var commits := Commits(w, t);
    PostsOfSnoc(commits, e);
    SubsequenceSkip(AssignedPosts(w.bus, t), PostsOf(commits), PostOf(e));
    assert (commits + [e])[..|commits|] == commits;
  }

  /** The last committer announces its commit. */
  lemma AnnouncementExtends(bus: seq<Posted>, t: string, earlier: seq<Entry>, last: Entry)
    requires last.req.Assign? && last.req.taskID == t && forall k | 0 <= k < |earlier| :: earlier[k].req.Assign?
    requires Subsequence(AssignedPosts(bus, t), PostsOf(earlier))
    ensures Subsequence(AssignedPosts(bus + [PostOf(last)], t), PostsOf(earlier + [last]))
  {
    AssignedPostsSnoc(bus, t, PostOf(last));
    PostsOfSnoc(earlier, last);
    SubsequenceTake(AssignedPosts(bus, t), PostsOf(earlier), PostOf(last));
  }

  /** The last committer keeps its commit to itself. */
  lemma SilenceExtends(bus: seq<Posted>, t: string, earlier: seq<Entry>, last: Entry)
    requires last.req.Assign? && forall k | 0 <= k < |earlier| :: earlier[k].req.Assign?
    requires Subsequence(AssignedPosts(bus, t), PostsOf(earlier))
    ensures Subsequence(AssignedPosts(bus, t), PostsOf(earlier + [last]))
  {
    PostsOfSnoc(earlier, last);
    SubsequenceSkip(AssignedPosts(bus, t), PostsOf(earlier), PostOf(last));
  }

  /** The last committer has dealt with its event and nobody else is inside. */
  ghost predicate JustPublished(w: World, w': World, t: string)
  {
    && Commits(w', t) == Commits(w, t) && Commits(w, t) != []
    && (forall c | IsInside(w', c, t) :: !w'.flights[c].pc.Publishing?)
    && var e := Commits(w, t)[|Commits(w, t)| - 1];
       e.req.Assign? && e.req.taskID == t && (w'.bus == w.bus || w'.bus == w.bus + [PostOf(e)])
  }

  lemma JustPublishedKeepsPosts(w: World, w': World, t: string, call: nat)
    requires PostsOk(w, t) && JustPublished(w, w', t)
    requires IsInside(w, call, t) && w.flights[call].pc.Publishing?
    ensures PostsOk(w', t)
  {
    var commits := Commits(w, t);
    var earlier, last := commits[..|commits| - 1], commits[|commits| - 1];
    assert commits == earlier + [last];
    AnnouncementExtends(w.bus, t, earlier, last);
    SilenceExtends(w.bus, t, earlier, last);
  }

  lemma OwnPublishShape(w: World, call: nat, fate: Fate, t: string)
    requires PostsOk(w, t) && IsInside(w, call, t) && w.flights[call].pc.Publishing?
    requires forall c | IsInside(w, c, t) :: c == call
    ensures JustPublished(w, Advanced(w, call, fate), t)
  {
    var w' := Advanced(w, call, fate);
    assert forall c | c != call :: IsInside(w', c, t) ==> IsInside(w, c, t);
    assert w'.past == w.past && !w'.flights[call].pc.Publishing?;
  }

  lemma OtherPublishKeepsPosts(w: World, call: nat, fate: Fate, t: string)
    requires PostsOk(w, t) && call in w.flights && w.flights[call].pc.Publishing?
    requires w.flights[call].req.Assign? ==> w.flights[call].req.taskID != t
    ensures PostsOk(Advanced(w, call, fate), t)
  {
    var f := w.flights[call];
    var w' := Advanced(w, call, fate);
    if Posts(f, fate) { AssignedPostsSnoc(w.bus, t, Posted(call, EventOf(f.pc.copy, f.req))); }
    assert AssignedPosts(w'.bus, t) == AssignedPosts(w.bus, t);
    assert Commits(w', t) == Commits(w, t);
    assert forall c :: IsInside(w', c, t) && w'.flights[c].pc.Publishing? ==>
      IsInside(w, c, t) && w'.flights[c] == w.flights[c];
  }

  /** The saves of t and the tickets stay, and nobody comes in. */
  ghost predicate TicketsStay(w: World, w': World, t: string)
  {
    && Commits(w', t) == Commits(w, t) && w'.tickets == w.tickets
    && (forall c | c in w.flights ::
          c in w'.flights && w'.flights[c].ticket == w.flights[c].ticket &&
            (w.flights[c].committed ==> w'.flights[c].committed))
    && (forall c | IsInside(w', c, t) :: IsInside(w, c, t) && w'.flights[c].committed == w.flights[c].committed)
  }

  lemma StayingKeepsTickets(w: World, w': World, t: string)
    requires TicketsOk(w, t) && TicketsStay(w, w', t)
    ensures TicketsOk(w', t)
  {
  }

  lemma PublishLeavesTickets(w: World, call: nat, fate: Fate, t: string)
    requires call in w.flights && w.flights[call].pc.Publishing?
    ensures TicketsStay(w, Advanced(w, call, fate), t)
  {
    var w' := Advanced(w, call, fate);
    assert Commits(w', t) == Commits(w, t);
    assert forall c :: IsInside(w', c, t) ==> IsInside(w, c, t);
  }

  lemma ClaimKeepsPosts(w: World, call: nat, fate: Fate, t: string)
    requires PostsOk(w, t) && call in w.flights && w.flights[call].pc.Claiming?
    ensures PostsOk(Advanced(w, call, fate), t)
  {
    var w' := Advanced(w, call, fate);
    assert Commits(w', t) == Commits(w, t);
    assert forall c | c != call :: IsInside(w', c, t) ==> IsInside(w, c, t);
  }

  /** Any other step leaves t's saves, the tickets and the bus alone and lets nobody in. */
  ghost predicate Uneventful(w: World, w': World, t: string)
  {
    && TicketsStay(w, w', t) && w'.bus == w.bus
    && (forall c | c in w.flights :: c in w'.flights && w'.flights[c].req == w.flights[c].req)
    && (forall c | IsInside(w', c, t) && w'.flights[c].pc.Publishing? ::
         IsInside(w, c, t) && w.flights[c].pc.Publishing?)
  }

  lemma UneventfulKeepsPosts(w: World, w': World, t: string)
    requires PostsOk(w, t) && Uneventful(w, w', t)
    ensures PostsOk(w', t)
  {
  }

  lemma UneventfulKeeps(w: World, w': World, t: string)
    requires TicketsOk(w, t) && PostsOk(w, t) && Uneventful(w, w', t)
    ensures TicketsOk(w', t) && PostsOk(w', t)
  {
    StayingKeepsTickets(w, w', t);
    UneventfulKeepsPosts(w, w', t);
  }

  /** A command other than a claim, a publish or an effective save of t. */
  predicate Plain(f: Flight, fate: Fate, t: string)
  {
    !f.pc.Claiming? && !f.pc.Publishing? && (f.pc.Saving? ==> f.req.taskID != t || !fate.Applied())
  }

  lemma PlainFlight(w: World, f: Flight, fate: Fate, t: string)
    requires Plain(f, fate, t) && f.req.taskID == t && (f.pc.Inserting? ==> f.req.Create?) && f.req.Assign?
    ensures var f' := FlightAfter(w, f, fate);
            Holding(f'.pc) ==> Holding(f.pc) && f'.committed == f.committed && !f'.pc.Publishing?
  {
  }

  lemma PlainAdvanceIsUneventful(w: World, call: nat, fate: Fate, t: string)
    requires call in w.flights && Plain(w.flights[call], fate, t)
    requires w.flights[call].pc.Inserting? ==> w.flights[call].req.Create?
    ensures Uneventful(w, Advanced(w, call, fate), t)
  {
    var w' := Advanced(w, call, fate);
    var f := w.flights[call];
    assert Commits(w', t) == Commits(w, t);
    if f.req.taskID == t && f.req.Assign? { PlainFlight(w, f, fate, t); }
    assert forall c | c != call :: IsInside(w', c, t) <==> IsInside(w, c, t);
  }

  lemma ElsewhereIsUneventful(w: World, s: Step, t: string)
    ensures Uneventful(w, Elsewhere(w, s), t)
  {
    assert Elsewhere(w, s).flights == w.flights && Elsewhere(w, s).past == w.past;
  }

  lemma CallEventIsUneventful(w: World, w': World, call: nat, f: Flight, t: string)
    requires w' == w.(flights := w.flights[call := f])
    requires if call in w.flights then f == w.flights[call].(pc := f.pc) && f.pc.Done?
             else !(Holding(f.pc) && f.req.Assign?)
    ensures Uneventful(w, w', t)
  {
  }

  lemma OtherStepIsUneventful(w: World, s: Step, t: string)
    requires !s.Advance?
    ensures Uneventful(w, Next(w, s), t)
  {
    if !s.Arrive? && !s.Crash? { ElsewhereIsUneventful(w, s, t); }
    else if Next(w, s) != w {
      assert s.Arrive? ==> Opening(s.req) != Reading || !s.req.Assign?;
      CallEventIsUneventful(w, Next(w, s), s.call, Next(w, s).flights[s.call], t);
    }
  }

  lemma AdvanceStaysSerial(w: World, call: nat, fate: Fate, t: string)
    requires Good(w) && TicketsOk(w, t) && PostsOk(w, t) && Exclusive(w, t) && AssignOnly(w, t)
    requires call in w.flights
    ensures TicketsOk(Advanced(w, call, fate), t) && PostsOk(Advanced(w, call, fate), t)
  {
    var f := w.flights[call];
    assert FlightOk(w, f);
    if f.pc.Claiming? {
      ClaimShape(w, call, fate, t);
      JustClaimedKeepsTickets(w, Advanced(w, call, fate), call, t);
      ClaimKeepsPosts(w, call, fate, t);
    } else if f.pc.Publishing? {
      PublishLeavesTickets(w, call, fate, t);
      StayingKeepsTickets(w, Advanced(w, call, fate), t);
      if f.req.Assign? && f.req.taskID == t {
        assert IsInside(w, call, t);
        OwnPublishShape(w, call, fate, t);
        JustPublishedKeepsPosts(w, Advanced(w, call, fate), t, call);
      } else {
        OtherPublishKeepsPosts(w, call, fate, t);
      }
    } else if f.pc.Saving? && f.req.taskID == t && fate.Applied() {
      assert IsInside(w, call, t);
      OwnSaveShape(w, call, fate, t);
      JustSavedKeepsTickets(w, Advanced(w, call, fate), call, t);
      JustSavedKeepsPosts(w, Advanced(w, call, fate), call, t);
    } else {
      PlainAdvanceIsUneventful(w, call, fate, t);
      UneventfulKeeps(w, Advanced(w, call, fate), t);
    }
  }

  lemma StepStaysSerial(w: World, s: Step, t: string)
    requires Good(w) && TicketsOk(w, t) && PostsOk(w, t) && Exclusive(w, t) && AssignOnly(w, t)
    ensures TicketsOk(Next(w, s), t) && PostsOk(Next(w, s), t)
  {
    if !s.Advance? {
      OtherStepIsUneventful(w, s, t);
      UneventfulKeeps(w, Next(w, s), t);
    } else if s.call in w.flights {
      AdvanceStaysSerial(w, s.call, s.fate, t);
    }
  }

  /** If no lock of t overruns and only AssignTask writes t, then at every state of the run no update of t is
      lost, t's row is what the committed assignments make of it one after another in the order in which they got
      the lock, its assignee is the one committed last, and the task.assigned events on the bus are the
      announcements of some of these commits, in commit order. */
  lemma AssignmentsAreAtomicInLockOrder(now: int, steps: seq<Step>, t: string)
    requires Count(Next, Start(now), steps, OverrunsOf(t)) == 0
    requires AssignOnly(Run(Next, Start(now), steps), t)
    requires t in Run(Next, Start(now), steps).rows
    ensures var w := Run(Next, Start(now), steps);
            && t in w.past
            && (forall k | 0 <= k < |w.past[t].commits| :: w.past[t].commits[k].req.Assign?)
            && Replay(w.past[t].root, w.past[t].commits) == Ok(w.rows[t])
            && InLockOrder(w, t)
            && w.rows[t].assignedTo == (if w.past[t].commits == [] then None
                                        else Some(w.past[t].commits[|w.past[t].commits| - 1].req.assignedTo))
            && Subsequence(AssignedPosts(w.bus, t), PostsOf(w.past[t].commits))
  {
    var w := Run(Next, Start(now), steps);
    SerialRun(now, steps, t);
    DisjointWindowsSaveFresh(now, steps, t);
    NothingLostIffSavesFresh(now, steps, t);
    StoredRowsHaveLegalHistories(now, steps, t);
    LastAssignmentWins(w.past[t].root, w.past[t].commits);
    assert Rooted(w, t);
  }

  lemma LastAssignmentWins(root: Task, history: seq<Entry>)
    requires Replay(root, history).Ok? && history != [] ==> history[|history| - 1].req.Assign?
    requires Replay(root, history).Ok?
    ensures Replay(root, history).task.assignedTo
            == if history == [] then root.assignedTo else Some(history[|history| - 1].req.assignedTo)
  {
  }

  lemma {:induction false} SerialRun(now: int, steps: seq<Step>, t: string)
    requires Count(Next, Start(now), steps, OverrunsOf(t)) == 0
    requires AssignOnly(Run(Next, Start(now), steps), t)
    ensures var w := Run(Next, Start(now), steps);
            TicketsOk(w, t) && PostsOk(w, t) && Exclusive(w, t)
    ensures Always(Next, Start(now), steps, WindowsApart(t))
  {
    NoOverrunMeansMutualExclusion(now, steps, t);
    if steps != [] {
      var before := steps[..|steps| - 1];
      var s := steps[|steps| - 1];
      var w := Run(Next, Start(now), before);
      NextGrows(w, s);
      assert AssignOnly(w, t);
      SerialRun(now, before, t);
      RunIsGood(now, before);
      StepStaysSerial(w, s, t);
      WindowsAreInside(w, t);
    }
  }

  lemma WindowsAreInside(w: World, t: string)
    requires Good(w) && AssignOnly(w, t) && Exclusive(w, t)
    ensures OneWindow(w, t)
  {
    forall c | InWindow(w, c, t) ensures IsInside(w, c, t) {
      assert FlightOk(w, w.flights[c]);
    }
  }
}
