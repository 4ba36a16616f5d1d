/** Status events: exactly when the task.status_changed events of a task reach the bus in the order of its saves, that
    they then tell its whole story, and a run on which they do not. */
module TaskEvents {
  import opened Prelude
  import opened Runs
  import opened TaskModel
  import opened TaskProtocol
  import opened TaskLineage

  /** One task.status_changed event: who sent it, and the old and the new status. */
  datatype Told = Told(call: nat, move: (Status, Status))

  /** The task.status_changed events about t on the bus, oldest first. */
  function StatusPosts(bus: seq<Posted>, t: string): seq<Told>
  {
    if bus == [] then []
    else
      var last := bus[|bus| - 1];
      StatusPosts(bus[..|bus| - 1], t) +
      if last.event.StatusChanged? && last.event.taskID == t
      then [Told(last.call, (last.event.oldStatus, last.event.newStatus))] else []
  }

  lemma StatusPostsSnoc(bus: seq<Posted>, t: string, p: Posted)
    ensures StatusPosts(bus + [p], t) == StatusPosts(bus, t) +
            if p.event.StatusChanged? && p.event.taskID == t
            then [Told(p.call, (p.event.oldStatus, p.event.newStatus))] else []
  {
    assert (bus + [p])[..|bus|] == bus;
  }

  /** The calls that saved a status change, in the order of their saves. */
  function ChangeCalls(commits: seq<Entry>): seq<nat>
  {
    if commits == [] then []
    else
      var last := commits[|commits| - 1];
      ChangeCalls(commits[..|commits| - 1]) + if last.req.ChangeStatus? then [last.call] else []
  }

  lemma ChangeCallsSnoc(commits: seq<Entry>, e: Entry)
    ensures ChangeCalls(commits + [e]) == ChangeCalls(commits) + if e.req.ChangeStatus? then [e.call] else []
  {
    assert (commits + [e])[..|commits|] == commits;
  }

  lemma {:induction false} ChangeCallsAreCommits(commits: seq<Entry>, c: nat)
    requires c in ChangeCalls(commits)
    ensures exists k :: 0 <= k < |commits| && commits[k].call == c
  {
    var n := |commits| - 1;
    if c in ChangeCalls(commits[..n]) {
      ChangeCallsAreCommits(commits[..n], c);
      var k :| 0 <= k < n && commits[..n][k].call == c;
      assert commits[k].call == c;
    }
  }

  function Changes(w: World, t: string): seq<nat>
  {
    if t in w.past then ChangeCalls(w.past[t].commits) else []
  }

  predicate Announcing(w: World, call: nat, t: string)
  {
    && call in w.flights && w.flights[call].req.ChangeStatus? && w.flights[call].req.taskID == t
    && w.flights[call].pc.Publishing?
  }

  /** A status change of t is saved but its event will never be sent. */
  predicate Silenced(w: World, s: Step, t: string)
  {
    || (s.Crash? && Announcing(w, s.call, t))
    || (s.Advance? && Announcing(w, s.call, t) && !s.fate.Applied())
    || (s.Advance? && s.call in w.flights && w.flights[s.call].req.ChangeStatus? && w.flights[s.call].req.taskID == t
        && w.flights[s.call].pc.Saving? && s.fate == Lost(true))
  }

  ghost function EveryChangeAnnounced(t: string): (World, Step) -> bool
  {
    (w, s) => !Silenced(w, s, t)
  }

  function MoveOf(f: Flight): (Status, Status)
    requires f.pc.Publishing? && f.req.ChangeStatus?
  {
    (f.pc.copy.task.status, f.req.newStatus)
  }

  // ---- the order of the events ----

  /** The step sends a change's event while the event of an earlier save of t is still to be sent. */
  ghost predicate Overtakes(w: World, s: Step, t: string)
  {
    && s.Advance? && Announcing(w, s.call, t)
    && exists i, j | 0 <= i < j < |Changes(w, t)| :: Announcing(w, Changes(w, t)[i], t) && Changes(w, t)[j] == s.call
  }

  ghost function NoOvertaking(t: string): (World, Step) -> bool
  {
    (w, s) => !Overtakes(w, s, t)
  }

  /** The events on the bus are those of the first saved changes, in the order of the saves. */
  predicate InSaveOrder(posts: seq<Told>, changes: seq<nat>)
  {
    |posts| <= |changes| && forall k | 0 <= k < |posts| :: posts[k].call == changes[k]
  }

  predicate Sent(posts: seq<Told>, call: nat) { exists i :: 0 <= i < |posts| && posts[i].call == call }

  /** Every saved change has either been announced or is about to be. */
  ghost predicate Tally(w: World, t: string)
  {
    var posts, changes := StatusPosts(w.bus, t), Changes(w, t);
    && (forall i, j | 0 <= i < j < |changes| :: changes[i] != changes[j])
    && (forall c | Announcing(w, c, t) :: c in changes && !Sent(posts, c))
    && (forall c | Sent(posts, c) :: c in changes)
    && (forall c | c in changes :: Announcing(w, c, t) || Sent(posts, c))
  }

  ghost predicate InOrder(w: World, t: string) { InSaveOrder(StatusPosts(w.bus, t), Changes(w, t)) }

  /** The announcer of the next saved change is the only one that overtakes nobody. */
  lemma SentInTurn(w: World, call: nat, fate: Fate, t: string, move: (Status, Status))
    requires Tally(w, t) && Announcing(w, call, t)
    ensures InSaveOrder(StatusPosts(w.bus, t) + [Told(call, move)], Changes(w, t)) <==>
            InOrder(w, t) && !Overtakes(w, Advance(call, fate), t)
  {
    var posts, changes := StatusPosts(w.bus, t), Changes(w, t);
    var n := |posts|;
    if InSaveOrder(posts, changes) {
      var j :| 0 <= j < |changes| && changes[j] == call;
      assert forall k | 0 <= k < n :: Sent(posts, changes[k]);
      if j > n { NextIsAnnouncing(w, t); }
    } else {
      assert forall k | 0 <= k < n :: (posts + [Told(call, move)])[k] == posts[k];
    }
  }

  /** While the events are in order, the first change not yet sent is about to be. */
  lemma NextIsAnnouncing(w: World, t: string)
    requires Tally(w, t) && InOrder(w, t) && |StatusPosts(w.bus, t)| < |Changes(w, t)|
    ensures Announcing(w, Changes(w, t)[|StatusPosts(w.bus, t)|], t)
  {
    var posts, changes := StatusPosts(w.bus, t), Changes(w, t);
    assert forall i | 0 <= i < |posts| :: posts[i].call == changes[i] && changes[i] != changes[|posts|];
  }

  // ---- what the steps do to changes, announcers and events ----

  /** Nothing that matters to t's events happens. */
  ghost predicate Untold(w: World, w': World, t: string)
  {
    && Changes(w', t) == Changes(w, t) && StatusPosts(w'.bus, t) == StatusPosts(w.bus, t)
    && (forall c :: Announcing(w', c, t) <==> Announcing(w, c, t))
    && (forall c | Announcing(w, c, t) :: w'.flights[c] == w.flights[c])
  }

  lemma UntoldKeepsTally(w: World, w': World, t: string)
    requires Tally(w, t) && Untold(w, w', t)
    ensures Tally(w', t) && (InOrder(w', t) <==> InOrder(w, t))
  {
  }

  /** The call saves a change of t and is about to announce it. */
  ghost predicate NewChange(w: World, w': World, call: nat, t: string)
  {
    && Changes(w', t) == Changes(w, t) + [call] && call !in Changes(w, t) && w'.bus == w.bus
    && (forall c :: Announcing(w', c, t) <==> Announcing(w, c, t) || c == call)
    && (forall c | Announcing(w, c, t) :: w'.flights[c] == w.flights[c])
  }

  lemma NewChangeKeepsTally(w: World, w': World, call: nat, t: string)
    requires Tally(w, t) && NewChange(w, w', call, t)
    ensures Tally(w', t) && (InOrder(w', t) <==> InOrder(w, t))
  {
    var posts, changes := StatusPosts(w.bus, t), Changes(w, t);
    assert forall c | Sent(posts, c) :: c != call;
    assert forall k | 0 <= k < |posts| :: Sent(posts, posts[k].call);
  }

  /** The call announces its change of t. */
  ghost predicate NewPost(w: World, w': World, call: nat, t: string)
  {
    && Announcing(w, call, t) && Changes(w', t) == Changes(w, t)
    && StatusPosts(w'.bus, t) == StatusPosts(w.bus, t) + [Told(call, MoveOf(w.flights[call]))]
    && (forall c :: Announcing(w', c, t) <==> Announcing(w, c, t) && c != call)
    && (forall c | Announcing(w, c, t) && c != call :: w'.flights[c] == w.flights[c])
  }

  lemma NewPostKeepsTally(w: World, w': World, call: nat, t: string)
    requires Tally(w, t) && NewPost(w, w', call, t)
    ensures Tally(w', t)
  {
    var posts, told := StatusPosts(w.bus, t), Told(call, MoveOf(w.flights[call]));
    forall c ensures Sent(posts + [told], c) <==> Sent(posts, c) || c == call {
      if Sent(posts, c) {
        var i :| 0 <= i < |posts| && posts[i].call == c;
        assert (posts + [told])[i].call == c;
      }
      if c == call { assert (posts + [told])[|posts|].call == c; }
    }
  }

  // ---- every step is one of these ----

  predicate SavesChange(w: World, s: Step, t: string) { SavesTask(w, s, t) && w.flights[s.call].req.ChangeStatus? }

  lemma SavedChangeIsAnnounced(w: World, call: nat, fate: Fate, t: string)
    requires SavesChange(w, Advance(call, fate), t) && !Silenced(w, Advance(call, fate), t)
    ensures forall c :: Announcing(Advanced(w, call, fate), c, t) <==> Announcing(w, c, t) || c == call
    ensures forall c | Announcing(w, c, t) :: Advanced(w, call, fate).flights[c] == w.flights[c]
  {
    var w' := Advanced(w, call, fate);
    assert w'.flights[call].pc.Publishing?;
    assert forall c | c != call :: Announcing(w', c, t) <==> Announcing(w, c, t);
  }

  lemma SaveIsNewChange(w: World, call: nat, fate: Fate, t: string)
    requires Good(w) && SavesChange(w, Advance(call, fate), t) && !Silenced(w, Advance(call, fate), t)
    ensures NewChange(w, Advanced(w, call, fate), call, t)
  {
    assert FlightOk(w, w.flights[call]) && RowOk(w, t);
    UncommittedIsNoChange(w, call, t);
    SavedChangeIsAnnounced(w, call, fate, t);
    ChangeCallsSnoc(w.past[t].commits, Entry(call, w.flights[call].req));
  }

  lemma UncommittedIsNoChange(w: World, call: nat, t: string)
    requires t in w.past && AllVouched(w, t, w.past[t].commits) && call in w.flights && !w.flights[call].committed
    ensures call !in Changes(w, t)
  {
    assert forall k | 0 <= k < |w.past[t].commits| ::
           Vouched(w, t, w.past[t].commits[k]) && w.past[t].commits[k].call != call;
    if call in Changes(w, t) { ChangeCallsAreCommits(w.past[t].commits, call); }
  }

  lemma OtherSaveIsUntold(w: World, call: nat, fate: Fate, t: string)
    requires call in w.flights && w.flights[call].pc.Saving? && !SavesChange(w, Advance(call, fate), t)
    requires w.flights[call].req.ChangeStatus? ==> w.flights[call].req.taskID != t || !fate.Applied()
    ensures Untold(w, Advanced(w, call, fate), t)
  {
    var w', f := Advanced(w, call, fate), w.flights[call];
    if Writes(w, f, fate) {
      var p := PastOf(w.past, f.req.taskID, f.pc.copy.task);
      ChangeCallsSnoc(p.commits, Entry(call, f.req));
    }
    assert forall c | c != call :: Announcing(w', c, t) <==> Announcing(w, c, t);
  }

  lemma PublishIsNewPost(w: World, call: nat, fate: Fate, t: string)
    requires Announcing(w, call, t) && fate.Applied()
    ensures NewPost(w, Advanced(w, call, fate), call, t)
  {
    var w', f := Advanced(w, call, fate), w.flights[call];
    StatusPostsSnoc(w.bus, t, Posted(call, EventOf(f.pc.copy, f.req)));
    assert w'.past == w.past && !Announcing(w', call, t);
    assert forall c | c != call :: Announcing(w', c, t) <==> Announcing(w, c, t);
  }

  lemma OtherPublishIsUntold(w: World, call: nat, fate: Fate, t: string)
    requires call in w.flights && w.flights[call].pc.Publishing? && !Announcing(w, call, t)
    ensures Untold(w, Advanced(w, call, fate), t)
  {
    var w', f := Advanced(w, call, fate), w.flights[call];
    if Posts(f, fate) { StatusPostsSnoc(w.bus, t, Posted(call, EventOf(f.pc.copy, f.req))); }
    assert w'.past == w.past;
    assert forall c | c != call :: Announcing(w', c, t) <==> Announcing(w, c, t);
  }

  lemma PlainAdvanceIsUntold(w: World, call: nat, fate: Fate, t: string)
    requires call in w.flights && !w.flights[call].pc.Publishing? && !w.flights[call].pc.Saving?
    ensures Untold(w, Advanced(w, call, fate), t)
  {
    var w' := Advanced(w, call, fate);
    PlainFlightDoesNotAnnounce(w, w.flights[call], fate);
    assert Changes(w', t) == Changes(w, t) && w'.bus == w.bus;
    assert forall c | c != call :: Announcing(w', c, t) <==> Announcing(w, c, t);
  }

  lemma PlainFlightDoesNotAnnounce(w: World, f: Flight, fate: Fate)
    requires !f.pc.Publishing? && !f.pc.Saving?
    ensures !FlightAfter(w, f, fate).pc.Publishing?
  {
  }

  lemma OtherStepIsUntold(w: World, s: Step, t: string)
    requires !s.Advance? && !Silenced(w, s, t)
    ensures Untold(w, Next(w, s), t)
  {
    assert Next(w, s).past == w.past && Next(w, s).bus == w.bus;
    forall c
      ensures Announcing(Next(w, s), c, t) <==> Announcing(w, c, t)
      ensures Announcing(w, c, t) ==> Next(w, s).flights[c] == w.flights[c]
    {
      if !Mentions(s, c) { StepLeavesFlight(w, s, c); }
    }
  }

  predicate SendsChange(w: World, s: Step, t: string) { s.Advance? && Announcing(w, s.call, t) }

  lemma OtherwiseUntold(w: World, s: Step, t: string)
    requires !Silenced(w, s, t) && !SavesChange(w, s, t) && !SendsChange(w, s, t)
    ensures Untold(w, Next(w, s), t)
  {
    if !s.Advance? {
      OtherStepIsUntold(w, s, t);
    } else if s.call in w.flights {
      var pc := w.flights[s.call].pc;
      if pc.Saving? { OtherSaveIsUntold(w, s.call, s.fate, t); }
      else if pc.Publishing? { OtherPublishIsUntold(w, s.call, s.fate, t); }
      else { PlainAdvanceIsUntold(w, s.call, s.fate, t); }
    }
  }

  lemma NextKeepsTally(w: World, s: Step, t: string)
    requires Good(w) && Tally(w, t) && !Silenced(w, s, t)
    ensures Tally(Next(w, s), t)
    ensures InOrder(Next(w, s), t) <==> InOrder(w, t) && !Overtakes(w, s, t)
  {
    if SavesChange(w, s, t) {
      SaveIsNewChange(w, s.call, s.fate, t);
      NewChangeKeepsTally(w, Next(w, s), s.call, t);
    } else if SendsChange(w, s, t) {
      PublishIsNewPost(w, s.call, s.fate, t);
      NewPostKeepsTally(w, Next(w, s), s.call, t);
      SentInTurn(w, s.call, s.fate, t, MoveOf(w.flights[s.call]));
    } else {
      OtherwiseUntold(w, s, t);
      UntoldKeepsTally(w, Next(w, s), t);
    }
  }

  /** On every run on which each saved status change is announced, whatever else happens and however updates are lost:
      the status events of t are those of its first saved changes, in the order of the saves, if and only if no event
      was ever sent while that of an earlier save was still to be sent. */
  lemma {:induction false} EventsFollowSavesIffNoneOvertakes(now: int, steps: seq<Step>, t: string)
    requires Always(Next, Start(now), steps, EveryChangeAnnounced(t))
    ensures InOrder(Run(Next, Start(now), steps), t) <==> Always(Next, Start(now), steps, NoOvertaking(t))
    ensures Tally(Run(Next, Start(now), steps), t)
  {
    if steps != [] {
      var before := steps[..|steps| - 1];
      EventsFollowSavesIffNoneOvertakes(now, before, t);
      RunIsGood(now, before);
      NextKeepsTally(Run(Next, Start(now), before), steps[|steps| - 1], t);
    }
  }

  // ---- what the events say ----

  /** An event says how its save moved the status. */
  ghost predicate Story(w: World, t: string)
  {
    t in w.past ==>
      && Replay(w.past[t].root, w.past[t].history).Ok?
      && var moves, posts, changes := Moves(w.past[t].root, w.past[t].history), StatusPosts(w.bus, t), Changes(w, t);
         && |moves| == |changes|
         && (forall k | 0 <= k < |changes| && Announcing(w, changes[k], t) :: moves[k] == MoveOf(w.flights[changes[k]]))
         && (forall i, k | 0 <= i < |posts| && 0 <= k < |changes| && posts[i].call == changes[k] ::
              posts[i].move == moves[k])
  }

  /** A save of t on top of the version it read: the history grows by the save. */
  ghost predicate FreshSave(w: World, w': World, call: nat, t: string)
  {
    && t in w.past && t in w'.past && w'.past[t].root == w.past[t].root && call in w.flights
    && w.flights[call].pc.Saving?
    && w'.past[t].history == w.past[t].history + [Entry(call, w.flights[call].req)]
    && Replay(w.past[t].root, w.past[t].history) == Ok(w.flights[call].pc.copy.task)
    && Edited(w.flights[call].pc.copy.task, w.flights[call].req).Ok?
  }

  lemma SaveIsFresh(w: World, call: nat, fate: Fate, t: string)
    requires Good(w) && SavesTask(w, Advance(call, fate), t) && !StaleSave(w, Advance(call, fate), t)
    ensures FreshSave(w, Advanced(w, call, fate), call, t)
  {
    assert FlightOk(w, w.flights[call]) && RowOk(w, t);
  }

  lemma NewChangeKeepsStory(w: World, w': World, call: nat, t: string)
    requires Tally(w, t) && Story(w, t) && NewChange(w, w', call, t) && FreshSave(w, w', call, t)
    requires w.flights[call].req.ChangeStatus? && call in w'.flights && w'.flights[call].req == w.flights[call].req
    requires w'.flights[call].pc.Publishing? && w'.flights[call].pc.copy == w.flights[call].pc.copy
    ensures Story(w', t)
  {
    var p, e := w.past[t], Entry(call, w.flights[call].req);
    ReplaySnoc(p.root, p.history, e);
    MovesSnoc(p.root, p.history, e);
    assert forall i | 0 <= i < |StatusPosts(w.bus, t)| :: Sent(StatusPosts(w.bus, t), StatusPosts(w.bus, t)[i].call);
  }

  lemma OtherSaveKeepsStory(w: World, w': World, call: nat, t: string)
    requires Story(w, t) && Untold(w, w', t) && FreshSave(w, w', call, t) && !w.flights[call].req.ChangeStatus?
    ensures Story(w', t)
  {
    var p, e := w.past[t], Entry(call, w.flights[call].req);
    ReplaySnoc(p.root, p.history, e);
    MovesSnoc(p.root, p.history, e);
  }

  lemma NewPostKeepsStory(w: World, w': World, call: nat, t: string)
    requires Story(w, t) && NewPost(w, w', call, t) && w'.past == w.past
    ensures Story(w', t)
  {
  }

  lemma UntoldKeepsStory(w: World, w': World, t: string)
    requires Story(w, t) && Untold(w, w', t)
    requires t in w.past ==>
             t in w'.past && w'.past[t].root == w.past[t].root && w'.past[t].history == w.past[t].history
    requires t !in w.past && t in w'.past ==>
             w'.past[t].history == [] && w'.past[t].commits == [] && StatusPosts(w.bus, t) == []
    ensures Story(w', t)
  {
  }

  lemma ChangeKeepsStory(w: World, call: nat, fate: Fate, t: string)
    requires Tally(w, t) && Story(w, t) && SavesChange(w, Advance(call, fate), t) &&
             !Silenced(w, Advance(call, fate), t)
    requires FreshSave(w, Advanced(w, call, fate), call, t) && NewChange(w, Advanced(w, call, fate), call, t)
    ensures Story(Advanced(w, call, fate), t)
  {
    NewChangeKeepsStory(w, Advanced(w, call, fate), call, t);
  }

  lemma SaveKeepsStory(w: World, call: nat, fate: Fate, t: string)
    requires Good(w) && Tally(w, t) && Story(w, t) && SavesTask(w, Advance(call, fate), t)
    requires !Silenced(w, Advance(call, fate), t) && !StaleSave(w, Advance(call, fate), t)
    ensures Story(Advanced(w, call, fate), t)
  {
    SaveIsFresh(w, call, fate, t);
    if w.flights[call].req.ChangeStatus? {
      SaveIsNewChange(w, call, fate, t);
      ChangeKeepsStory(w, call, fate, t);
    } else {
      OtherSaveIsUntold(w, call, fate, t);
      OtherSaveKeepsStory(w, Advanced(w, call, fate), call, t);
    }
  }

  lemma OtherwiseKeepsStory(w: World, s: Step, t: string)
    requires Tally(w, t) && Story(w, t) && !SavesTask(w, s, t) && !SendsChange(w, s, t) && !Silenced(w, s, t)
    ensures Story(Next(w, s), t)
  {
    OtherwiseUntold(w, s, t);
    OtherStepLeavesHistory(w, s, t);
    NoPostsWithoutARow(w, t);
    UntoldKeepsStory(w, Next(w, s), t);
  }

  lemma NextKeepsStory(w: World, s: Step, t: string)
    requires Good(w) && Tally(w, t) && Story(w, t) && !Silenced(w, s, t) && !StaleSave(w, s, t)
    ensures Story(Next(w, s), t)
  {
    if SavesTask(w, s, t) {
      SaveKeepsStory(w, s.call, s.fate, t);
    } else if SendsChange(w, s, t) {
      PublishIsNewPost(w, s.call, s.fate, t);
      NewPostKeepsStory(w, Next(w, s), s.call, t);
    } else {
      OtherwiseKeepsStory(w, s, t);
    }
  }

  lemma OtherStepLeavesHistory(w: World, s: Step, t: string)
    requires !SavesTask(w, s, t)
    ensures t in w.past ==> t in Next(w, s).past && Next(w, s).past[t] == w.past[t]
    ensures t !in w.past && t in Next(w, s).past ==>
            Next(w, s).past[t].history == [] && Next(w, s).past[t].commits == []
  {
  }

  lemma NoPostsWithoutARow(w: World, t: string)
    requires Tally(w, t)
    ensures t !in w.past ==> StatusPosts(w.bus, t) == []
  {
    if StatusPosts(w.bus, t) != [] { assert Sent(StatusPosts(w.bus, t), StatusPosts(w.bus, t)[0].call); }
  }

  lemma {:induction false} StoryRun(now: int, steps: seq<Step>, t: string)
    requires Always(Next, Start(now), steps, FreshSaves(t)) && Always(Next, Start(now), steps, EveryChangeAnnounced(t))
    ensures Story(Run(Next, Start(now), steps), t)
  {
    if steps != [] {
      var before := steps[..|steps| - 1];
      StoryRun(now, before, t);
      RunIsGood(now, before);
      EventsFollowSavesIffNoneOvertakes(now, before, t);
      NextKeepsStory(Run(Next, Start(now), before), steps[|steps| - 1], t);
    }
  }

  /** The events start at todo, and each continues where the one before ended. */
  predicate Chained(posts: seq<Told>)
  {
    && (posts != [] ==> posts[0].move.0 == Todo)
    && (forall k | 0 <= k < |posts| - 1 :: posts[k].move.1 == posts[k + 1].move.0)
  }

  /** If read-to-save windows on t do not overlap, no saved change goes unannounced and no event overtakes that of an
      earlier save, the status events of t are the moves its history begins with: they chain old to new from todo, and
      once nobody is about to publish they end in the current status. */
  lemma StatusEventsTellTheStory(now: int, steps: seq<Step>, t: string)
    requires Always(Next, Start(now), steps, WindowsApart(t)) &&
             Always(Next, Start(now), steps, EveryChangeAnnounced(t))
    requires Always(Next, Start(now), steps, NoOvertaking(t))
    requires t in Run(Next, Start(now), steps).rows
    ensures var w := Run(Next, Start(now), steps);
            var posts := StatusPosts(w.bus, t);
            && t in w.past && Replay(w.past[t].root, w.past[t].history).Ok?
            && (var moves := Moves(w.past[t].root, w.past[t].history);
                |posts| <= |moves| && forall k | 0 <= k < |posts| :: posts[k].move == moves[k])
            && Chained(posts)
            && ((forall c :: !Announcing(w, c, t)) ==>
                  w.rows[t].status == if posts == [] then Todo else posts[|posts| - 1].move.1)
  {
    DisjointWindowsSaveFresh(now, steps, t);
    StoryRun(now, steps, t);
    EventsFollowSavesIffNoneOvertakes(now, steps, t);
    StoredRowsHaveLegalHistories(now, steps, t);
    StoryChains(Run(Next, Start(now), steps), t);
  }

  lemma StoryChains(w: World, t: string)
    requires Story(w, t) && Tally(w, t) && InOrder(w, t) && t in w.past && t in w.rows
    requires w.past[t].root.status == Todo && Replay(w.past[t].root, w.past[t].history) == Ok(w.rows[t])
    ensures var posts, moves := StatusPosts(w.bus, t), Moves(w.past[t].root, w.past[t].history);
            && |posts| <= |moves| && (forall k | 0 <= k < |posts| :: posts[k].move == moves[k])
            && Chained(posts)
            && ((forall c :: !Announcing(w, c, t)) ==>
                  w.rows[t].status == if posts == [] then Todo else posts[|posts| - 1].move.1)
  {
    var posts, moves := StatusPosts(w.bus, t), Moves(w.past[t].root, w.past[t].history);
    MovesFormPath(w.past[t].root, w.past[t].history);
    PathChains(Todo, moves, w.rows[t].status);
    if |posts| < |moves| { NextIsAnnouncing(w, t); }
  }

  /** The call has read t and not yet dealt with its event. */
  predicate InSpan(w: World, call: nat, t: string)
  {
    InWindow(w, call, t) ||
    (call in w.flights && w.flights[call].req.taskID == t && w.flights[call].pc.Publishing?)
  }

  ghost predicate OneSpan(w: World, t: string)
  {
    forall a, b | InSpan(w, a, t) && InSpan(w, b, t) :: a == b
  }

  ghost function SpansApart(t: string): (World, Step) -> bool
  {
    (w, s) => OneSpan(w, t)
  }

  /** Read-to-publish spans that do not overlap are enough: their windows are apart and no event overtakes another. */
  lemma {:induction false} DisjointSpansDoNotOvertake(now: int, steps: seq<Step>, t: string)
    requires Always(Next, Start(now), steps, SpansApart(t)) && Always(Next, Start(now), steps, EveryChangeAnnounced(t))
    ensures Always(Next, Start(now), steps, WindowsApart(t)) && Always(Next, Start(now), steps, NoOvertaking(t))
  {
    if steps != [] {
      var before := steps[..|steps| - 1];
      var w := Run(Next, Start(now), before);
      DisjointSpansDoNotOvertake(now, before, t);
      EventsFollowSavesIffNoneOvertakes(now, before, t);
      assert OneSpan(w, t);
      OneSpanHasOneAnnouncer(w, steps[|steps| - 1], t);
    }
  }

  lemma OneSpanHasOneAnnouncer(w: World, s: Step, t: string)
    requires OneSpan(w, t) && Tally(w, t)
    ensures OneWindow(w, t) && !Overtakes(w, s, t)
  {
    assert forall a | InWindow(w, a, t) || Announcing(w, a, t) :: InSpan(w, a, t);
  }

  // ---- disjoint read-to-save windows are not enough ----

  const SOME_FORM := Form("title", "", "", NoDate)

  const CREATION := Create("t", "c", "p", "m", SOME_FORM)
  const TO_PROGRESS := ChangeStatus("t", "c", InProgress, "m", Manager)
  const TO_DONE := ChangeStatus("t", "c", Completed, "m", Manager)

  const CREATING: seq<Step> :=
    [] + [OpenProject("p", "c")] + [Arrive(0, CREATION)] + [Advance(0, Answered)] + [Advance(0, Answered)]

  /** A task is created and moved to in_progress, but the event of the move is not sent yet. */
  const OPENING_SCENE: seq<Step> := CREATING + [Arrive(1, TO_PROGRESS)] + [Advance(1, Answered)]
    + [Advance(1, Answered)]

  /** The task is moved on to done, the event of that move is sent, and then the event of the first move. */
  const CROSSED_PUBLISHES: seq<Step> :=
    OPENING_SCENE + [Arrive(2, TO_DONE)] + [Advance(2, Answered)] + [Advance(2, Answered)] + [Advance(2, Answered)]
    + [Advance(1, Answered)]

  ghost predicate Calm(w: World, steps: seq<Step>)
  {
    && w == Run(Next, Start(0), steps)
    && Always(Next, Start(0), steps, WindowsApart("t"))
    && Always(Next, Start(0), steps, EveryChangeAnnounced("t"))
  }

  lemma StayCalm(w: World, steps: seq<Step>, s: Step)
    requires Calm(w, steps) && OneWindow(w, "t") && !Silenced(w, s, "t")
    ensures Calm(Next(w, s), steps + [s])
  {
    RunSnoc(Next, Start(0), steps, s);
    AlwaysSnoc(Next, Start(0), steps, s, WindowsApart("t"));
    AlwaysSnoc(Next, Start(0), steps, s, EveryChangeAnnounced("t"));
  }

  lemma TaskCreated() returns (w: World)
    ensures Calm(w, CREATING)
    ensures w.rows == map["t" := NewTask(CREATION)] && w.bus == []
    ensures w.flights.Keys == {0} && w.flights[0].pc.Done?
  {
    var steps: seq<Step> := [];
    w := Start(0);
    StayCalm(w, steps, OpenProject("p", "c"));
    w, steps := Next(w, OpenProject("p", "c")), steps + [OpenProject("p", "c")];
    StayCalm(w, steps, Arrive(0, CREATION));
    w, steps := Next(w, Arrive(0, CREATION)), steps + [Arrive(0, CREATION)];
    StayCalm(w, steps, Advance(0, Answered));
    w, steps := Next(w, Advance(0, Answered)), steps + [Advance(0, Answered)];
    StayCalm(w, steps, Advance(0, Answered));
    w := Next(w, Advance(0, Answered));
  }

  lemma ChangeRead(w: World, steps: seq<Step>, call: nat, req: Request) returns (w': World)
    requires Calm(w, steps) && call !in w.flights && (forall c :: !InWindow(w, c, "t"))
    requires req.ChangeStatus? && WellFormed(req) && req.taskID == "t" && Visible(w, req) &&
             Edited(w.rows["t"], req).Ok?
    ensures Calm(w', steps + [Arrive(call, req)] + [Advance(call, Answered)])
    ensures w'.rows == w.rows && w'.bus == w.bus && forall c | c != call :: !InWindow(w', c, "t")
    ensures w'.flights
            == w.flights[call := Flight(req, Saving(CopyOf(w.past, w.rows["t"], "t"), Edited(w.rows["t"], req).task),
                                        0, false)]
  {
    StayCalm(w, steps, Arrive(call, req));
    var arrived := Next(w, Arrive(call, req));
    assert forall c :: InWindow(arrived, c, "t") ==> InWindow(w, c, "t");
    StayCalm(arrived, steps + [Arrive(call, req)], Advance(call, Answered));
    w' := Next(arrived, Advance(call, Answered));
    assert forall c | c != call :: InWindow(w', c, "t") ==> InWindow(arrived, c, "t");
  }

  lemma SaveEffect(w: World, call: nat)
    requires call in w.flights && w.flights[call].pc.Saving? && w.flights[call].req.ChangeStatus?
    ensures var f, w' := w.flights[call], Next(w, Advance(call, Answered));
            && w'.rows == w.rows[f.req.taskID := f.pc.draft] && w'.bus == w.bus
            && w'.flights == w.flights[call := f.(pc := Publishing(f.pc.copy, f.pc.draft), committed := true)]
  {
  }

  lemma StatusEdit(task: Task, req: Request)
    requires (req == TO_PROGRESS && task.status == Todo) || (req == TO_DONE && task.status == InProgress)
    ensures WellFormed(req) && Edited(task, req) == Ok(task.(status := req.newStatus))
  {
  }

  /** A status change that arrives, reads and saves undisturbed. */
  lemma ChangeSaved(w: World, steps: seq<Step>, call: nat, req: Request) returns (w': World)
    requires Calm(w, steps) && call !in w.flights && (forall c :: !InWindow(w, c, "t"))
    requires req.ChangeStatus? && WellFormed(req) && req.taskID == "t" && Visible(w, req) &&
             Edited(w.rows["t"], req).Ok?
    ensures Calm(w', steps + [Arrive(call, req)] + [Advance(call, Answered)] + [Advance(call, Answered)])
    ensures w'.rows == w.rows["t" := Edited(w.rows["t"], req).task] && w'.bus == w.bus
    ensures w'.flights
            == w.flights[call := Flight(
                                   req, Publishing(CopyOf(w.past, w.rows["t"], "t"), Edited(w.rows["t"], req).task),
                                   0, true)]
  {
    var read := ChangeRead(w, steps, call, req);
    StayCalm(read, steps + [Arrive(call, req)] + [Advance(call, Answered)], Advance(call, Answered));
    SaveEffect(read, call);
    w' := Next(read, Advance(call, Answered));
  }

  lemma CreatedIsIdle(w: World)
    requires w.rows == map["t" := NewTask(CREATION)] && w.flights.Keys == {0} && w.flights[0].pc.Done?
    ensures (forall c :: !InWindow(w, c, "t")) && Visible(w, TO_PROGRESS)
    ensures Edited(w.rows["t"], TO_PROGRESS) == Ok(NewTask(CREATION).(status := InProgress))
  {
    StatusEdit(w.rows["t"], TO_PROGRESS);
  }

  lemma FirstChangeSaved() returns (w: World)
    ensures Calm(w, OPENING_SCENE)
    ensures w.rows == map["t" := NewTask(CREATION).(status := InProgress)] && w.bus == []
    ensures w.flights.Keys == {0, 1} && w.flights[0].pc.Done?
    ensures w.flights[1].req == TO_PROGRESS && w.flights[1].pc.Publishing? && w.flights[1].pc.copy.task.status == Todo
  {
    var before := TaskCreated();
    CreatedIsIdle(before);
    w := ChangeSaved(before, CREATING, 1, TO_PROGRESS);
  }

  lemma SecondChangeSaved() returns (w: World)
    ensures Calm(w, OPENING_SCENE + [Arrive(2, TO_DONE)] + [Advance(2, Answered)] + [Advance(2, Answered)])
    ensures w.bus == [] && w.flights.Keys == {0, 1, 2} && w.flights[0].pc.Done?
    ensures w.flights[1].req == TO_PROGRESS && w.flights[1].pc.Publishing? && w.flights[1].pc.copy.task.status == Todo
    ensures w.flights[2].req == TO_DONE && w.flights[2].pc.Publishing? && w.flights[2].pc.copy.task.status == InProgress
  {
    var before := FirstChangeSaved();
    StatusEdit(before.rows["t"], TO_DONE);
    w := ChangeSaved(before, OPENING_SCENE, 2, TO_DONE);
  }

  /** A saved change announces itself. */
  lemma ChangeAnnounced(w: World, steps: seq<Step>, call: nat) returns (w': World)
    requires Calm(w, steps) && Announcing(w, call, "t") && OneWindow(w, "t")
    ensures Calm(w', steps + [Advance(call, Answered)])
    ensures StatusPosts(w'.bus, "t") == StatusPosts(w.bus, "t") + [Told(call, MoveOf(w.flights[call]))]
    ensures call in w'.flights && w'.flights == w.flights[call := w'.flights[call]] && w'.flights[call].pc.Done?
  {
    StayCalm(w, steps, Advance(call, Answered));
    w' := Next(w, Advance(call, Answered));
    StatusPostsSnoc(w.bus, "t", Posted(call, EventOf(w.flights[call].pc.copy, w.flights[call].req)));
  }

  lemma SecondChangeAnnounced() returns (w: World)
    ensures Calm(w, OPENING_SCENE + [Arrive(2, TO_DONE)] + [Advance(2, Answered)] + [Advance(2, Answered)]
            + [Advance(2, Answered)])
    ensures StatusPosts(w.bus, "t") == [Told(2, (InProgress, Completed))] && w.flights.Keys == {0, 1, 2}
    ensures w.flights[0].pc.Done? && w.flights[2].pc.Done?
    ensures w.flights[1].req == TO_PROGRESS && w.flights[1].pc.Publishing? && w.flights[1].pc.copy.task.status == Todo
  {
    var saved := SecondChangeSaved();
    assert MoveOf(saved.flights[2]) == (InProgress, Completed);
    w := ChangeAnnounced(saved, OPENING_SCENE + [Arrive(2, TO_DONE)] + [Advance(2, Answered)]
      + [Advance(2, Answered)], 2);
  }

  /** A run on which read-to-save windows never overlap and every change is announced, and yet the events do not
      chain: the bus carries in_progress to done before todo to in_progress. */
  lemma DisjointWindowsCanCrossEvents()
    ensures Always(Next, Start(0), CROSSED_PUBLISHES, WindowsApart("t"))
    ensures Always(Next, Start(0), CROSSED_PUBLISHES, EveryChangeAnnounced("t"))
    ensures StatusPosts(Run(Next, Start(0), CROSSED_PUBLISHES).bus, "t")
            == [Told(2, (InProgress, Completed)), Told(1, (Todo, InProgress))]
  {
    var sent := SecondChangeAnnounced();
    assert MoveOf(sent.flights[1]) == (Todo, InProgress);
    var end := ChangeAnnounced(
      sent, OPENING_SCENE + [Arrive(2, TO_DONE)] + [Advance(2, Answered)] + [Advance(2, Answered)]
        + [Advance(2, Answered)], 1);
  }
}
