/** The search index: events are routed by type to an index and a document id, and the event's payload replaces the
    document stored there. */
module SearchIndex {
  import opened Prelude
  import Broker

  /** A JSON value, as far as it matters; Time is one the indexer adds. */
  datatype Value = Text(text: string) | Time(at: int) | OtherValue(n: int)

  type Document = map<string, Value>

  datatype Payload = Broken | Null | Object(fields: Document)

  datatype Event = Event(kind: string, payload: Payload)

  datatype Target = Target(index: string, id: string)

  type Index = map<Target, Document>

  predicate StartsWith(kind: string, prefix: string) { |kind| >= |prefix| && kind[..|prefix|] == prefix }

  function GetString(fields: Document, key: string): string
  {
    if key in fields && fields[key].Text? then fields[key].text else ""
  }

  /** Where an event's document goes; no index for a type that is not indexed. */
  function RouteEvent(kind: string, fields: Document): Target
  {
    if StartsWith(kind, "task") then Target("tasks", GetString(fields, "task_id"))
    else if StartsWith(kind, "file") then Target("files", GetString(fields, "file_id"))
    else if StartsWith(kind, "report") then Target("reports", GetString(fields, "job_id"))
    else Target("", "")
  }

  const INDEXED_AT := "indexed_at"
  const EVENT_TYPE := "event_type"

  /** The payload with the indexer's two fields set. */
  function Stamped(e: Event, now: int): Document
    requires e.payload.Object?
  {
    e.payload.fields[INDEXED_AT := Time(now)][EVENT_TYPE := Text(e.kind)]
  }

  /** One processed event and the time it was processed at. */
  datatype Entry = Entry(event: Event, at: int)

  function TargetOf(e: Event): Target
    requires e.payload.Object?
  {
    RouteEvent(e.kind, e.payload.fields)
  }

  /** The event puts a document at the target: a document without id is refused. */
  predicate Writes(e: Event, target: Target)
  {
    e.payload.Object? && TargetOf(e) == target && target.index != "" && target.id != ""
  }

  function AfterEntry(index: Index, entry: Entry): Index
  {
    if entry.event.payload.Object? && Writes(entry.event, TargetOf(entry.event))
    then index[TargetOf(entry.event) := Stamped(entry.event, entry.at)]
    else index
  }

  /** The index after the given entries, in order. */
  function AfterLog(index: Index, log: seq<Entry>): Index
  {
    if log == [] then index else AfterEntry(AfterLog(index, log[..|log| - 1]), log[|log| - 1])
  }

  lemma {:induction false} AfterLogConcat(index: Index, first: seq<Entry>, second: seq<Entry>)
    ensures AfterLog(index, first + second) == AfterLog(AfterLog(index, first), second)
  {
    if second == [] {
      assert first + second == first;
    } else {
      AfterLogConcat(index, first, second[..|second| - 1]);
      assert (first + second)[..|first + second| - 1] == first + second[..|second| - 1];
    }
  }

  /** Stamping does not change where an event goes. */
  lemma StampsDoNotRoute(e: Event, now: int)
    requires e.payload.Object?
    ensures RouteEvent(e.kind, Stamped(e, now)) == TargetOf(e)
  {
    StampsAreNoIds();
  }

  lemma StampsAreNoIds()
    ensures INDEXED_AT !in {"task_id", "file_id", "job_id"} && EVENT_TYPE !in {"task_id", "file_id", "job_id"}
  {
    assert |INDEXED_AT| == 10 && |EVENT_TYPE| == 10;
  }

  // ---- the index holds the last event of each document ----

  /** The position of the last entry that writes the target; -1 if there is none. */
  function LastFor(log: seq<Entry>, target: Target): (k: int)
    ensures -1 <= k < |log|
    ensures k >= 0 ==> Writes(log[k].event, target)
    ensures forall j | k < j < |log| :: !Writes(log[j].event, target)
  {
    if log == [] then -1
    else if Writes(log[|log| - 1].event, target) then |log| - 1
    else LastFor(log[..|log| - 1], target)
  }

  /** After any log, from an empty index: a target holds a document if and only if some entry wrote it, and it is the
      last such entry's. */
  lemma {:induction false} IndexHoldsTheLastEvent(log: seq<Entry>, target: Target)
    ensures var k := LastFor(log, target);
            && (target in AfterLog(map[], log) <==> k >= 0)
            && (k >= 0 ==> AfterLog(map[], log)[target] == Stamped(log[k].event, log[k].at))
  {
    if log != [] {
      IndexHoldsTheLastEvent(log[..|log| - 1], target);
    }
  }

  // ---- the same in the terms of the events ----

  /** The event's type begins with the prefix, and its payload carries the id as a text in the field. */
  predicate Names(e: Event, prefix: string, field: string, id: string)
  {
    prefix <= e.kind && e.payload.Object? && field in e.payload.fields && e.payload.fields[field] == Text(id) &&
      id != ""
  }

  /** No index takes events of this type. */
  predicate OfNoIndex(kind: string)
  {
    !("task" <= kind) && !("file" <= kind) && !("report" <= kind)
  }

  /** The event carries the id that its type asks for. */
  ghost predicate Identified(e: Event)
  {
    exists id :: Names(e, "task", "task_id", id) || Names(e, "file", "file_id", id) || Names(e, "report", "job_id", id)
  }

  lemma PrefixesExclude(kind: string)
    ensures "task" <= kind ==> !("file" <= kind) && !("report" <= kind)
    ensures "file" <= kind ==> !("report" <= kind)
  {
    if "task" <= kind { assert kind[0] == 't'; }
    if "file" <= kind { assert kind[0] == 'f'; }
    if "report" <= kind { assert kind[0] == 'r'; }
  }

  lemma RouteByPrefix(e: Event)
    requires e.payload.Object?
    ensures OfNoIndex(e.kind) <==> TargetOf(e).index == ""
    ensures Identified(e) <==> TargetOf(e).index != "" && TargetOf(e).id != ""
  {
    PrefixesExclude(e.kind);
    var fields := e.payload.fields;
    var t := TargetOf(e);
    if t.index != "" && t.id != "" {
      assert Names(e, "task", "task_id", t.id) || Names(e, "file", "file_id", t.id) ||
             Names(e, "report", "job_id", t.id);
    }
  }

  lemma WritesWhatItNames(e: Event, index: string, prefix: string, field: string, id: string)
    requires (index, prefix, field) in {("tasks", "task", "task_id"), ("files", "file", "file_id"),
                                        ("reports", "report", "job_id")}
    ensures Writes(e, Target(index, id)) <==> Names(e, prefix, field, id)
  {
    PrefixesExclude(e.kind);
  }

  /** The document is the payload of the event with the time it was indexed at and its type. */
  predicate StampedPayload(doc: Document, e: Event, at: int)
  {
    e.payload.Object? && doc == e.payload.fields["indexed_at" := Time(at)]["event_type" := Text(e.kind)]
  }

  lemma LastWriterIsKept(log: seq<Entry>, target: Target, k: nat)
    requires k < |log| && Writes(log[k].event, target) && forall j | k < j < |log| :: !Writes(log[j].event, target)
    ensures target in AfterLog(map[], log) && AfterLog(map[], log)[target] == Stamped(log[k].event, log[k].at)
  {
    IndexHoldsTheLastEvent(log, target);
    assert LastFor(log, target) == k;
  }

  /** After any log, from an empty index: tasks holds a document of the id if and only if some event whose type begins
      with task carries it as its task_id, and it is the stamped payload of the last such event; likewise files by
      file_id and reports by job_id. */
  lemma DocumentsAreTheLastEventsNamingThem(log: seq<Entry>, index: string, prefix: string, field: string, id: string)
    requires (index, prefix, field) in {("tasks", "task", "task_id"), ("files", "file", "file_id"),
                                        ("reports", "report", "job_id")}
    ensures Target(index, id) in AfterLog(map[], log) <==>
            exists k | 0 <= k < |log| :: Names(log[k].event, prefix, field, id)
    ensures forall k | 0 <= k < |log| && Names(log[k].event, prefix, field, id)
                       && (forall j | k < j < |log| :: !Names(log[j].event, prefix, field, id)) ::
              && Target(index, id) in AfterLog(map[], log)
              && StampedPayload(AfterLog(map[], log)[Target(index, id)], log[k].event, log[k].at)
  {
    var target := Target(index, id);
    forall k | 0 <= k < |log| ensures Writes(log[k].event, target) <==> Names(log[k].event, prefix, field, id) {
      WritesWhatItNames(log[k].event, index, prefix, field, id);
    }
    IndexHoldsTheLastEvent(log, target);
    forall k | 0 <= k < |log| && Names(log[k].event, prefix, field, id)
               && (forall j | k < j < |log| :: !Names(log[j].event, prefix, field, id))
      ensures target in AfterLog(map[], log)
      ensures StampedPayload(AfterLog(map[], log)[target], log[k].event, log[k].at)
    {
      LastWriterIsKept(log, target, k);
    }
  }

  /** There are no other documents. */
  lemma {:induction false} NoOtherIndexHasDocuments(log: seq<Entry>)
    ensures forall t | t in AfterLog(map[], log) :: t.index in {"tasks", "files", "reports"} && t.id != ""
  {
    if log != [] { NoOtherIndexHasDocuments(log[..|log| - 1]); }
  }

  // ---- replaying events ----

  /** The same documents, whenever they were indexed. */
  predicate SameDocument(d: Document, d': Document) { d - {INDEXED_AT} == d' - {INDEXED_AT} }

  predicate SameIndex(index: Index, index': Index)
  {
    index.Keys == index'.Keys && forall t | t in index :: SameDocument(index[t], index'[t])
  }

  predicate SameContent(e: Event, e': Event)
    requires e.payload.Object? && e'.payload.Object?
  {
    SameDocument(Stamped(e, 0), Stamped(e', 0))
  }

  lemma StampedAtAnyTime(e: Event, e': Event, t: int, t': int)
    requires e.payload.Object? && e'.payload.Object?
    ensures SameDocument(Stamped(e, t), Stamped(e', t')) <==> SameContent(e, e')
  {
    assert Stamped(e, t) - {INDEXED_AT} == Stamped(e, 0) - {INDEXED_AT};
    assert Stamped(e', t') - {INDEXED_AT} == Stamped(e', 0) - {INDEXED_AT};
  }

  /** Both logs end, for the target, with the same content, or neither writes it. */
  predicate AgreeOn(log: seq<Entry>, log': seq<Entry>, target: Target)
  {
    var k, k' := LastFor(log, target), LastFor(log', target);
    (k >= 0 <==> k' >= 0) && (k >= 0 ==> SameContent(log[k].event, log'[k'].event))
  }

  predicate SameAt(index: Index, index': Index, target: Target)
  {
    (target in index <==> target in index') && (target in index ==> SameDocument(index[target], index'[target]))
  }

  lemma LogsAgreeAt(log: seq<Entry>, log': seq<Entry>, target: Target)
    ensures AgreeOn(log, log', target) <==> SameAt(AfterLog(map[], log), AfterLog(map[], log'), target)
  {
    IndexHoldsTheLastEvent(log, target);
    IndexHoldsTheLastEvent(log', target);
    var k, k' := LastFor(log, target), LastFor(log', target);
    if k >= 0 && k' >= 0 { StampedAtAnyTime(log[k].event, log'[k'].event, log[k].at, log'[k'].at); }
  }

  /** Two ways of processing events, in any orders and with any repetitions, give the same index, but for when documents
      were indexed, if and only if for every document the last events agree. So an event redelivered after a later one
      of the same document makes the index stale. */
  lemma LogsGiveTheSameIndexIff(log: seq<Entry>, log': seq<Entry>)
    ensures SameIndex(AfterLog(map[], log), AfterLog(map[], log')) <==>
            forall target: Target :: AgreeOn(log, log', target)
  {
    var index, index' := AfterLog(map[], log), AfterLog(map[], log');
    forall target: Target
      ensures AgreeOn(log, log', target) <==> SameAt(index, index', target)
    {
      LogsAgreeAt(log, log', target);
    }
    if forall target: Target :: AgreeOn(log, log', target) {
      assert forall t | t in index :: SameAt(index, index', t);
      assert forall t | t in index' :: SameAt(index, index', t);
    }
  }

  lemma {:induction false} LastForConcat(log: seq<Entry>, replay: seq<Entry>, target: Target)
    ensures var r := LastFor(replay, target);
            LastFor(log + replay, target) == if r >= 0 then |log| + r else LastFor(log, target)
  {
    if replay == [] {
      assert log + replay == log;
    } else {
      LastForConcat(log, replay[..|replay| - 1], target);
      assert (log + replay)[..|log + replay| - 1] == log + replay[..|replay| - 1];
    }
  }

  /** The same events, processed again at other times. */
  predicate Replays(part: seq<Entry>, replay: seq<Entry>)
  {
    |part| == |replay| && forall k | 0 <= k < |part| :: part[k].event == replay[k].event
  }

  lemma {:induction false} ReplayHasTheSameLast(part: seq<Entry>, replay: seq<Entry>, target: Target)
    requires Replays(part, replay)
    ensures LastFor(part, target) == LastFor(replay, target)
  {
    if part != [] {
      var n := |part| - 1;
      assert part[n].event == replay[n].event;
      ReplayHasTheSameLast(part[..n], replay[..n], target);
    }
  }

  /** Replaying any suffix of what was processed, in order, leaves the index as it is. */
  lemma ReplayedSuffixChangesNothing(before: seq<Entry>, suffix: seq<Entry>, replay: seq<Entry>)
    requires Replays(suffix, replay)
    ensures SameIndex(AfterLog(map[], before + suffix), AfterLog(map[], before + suffix + replay))
  {
    var log := before + suffix;
    forall target: Target
      ensures AgreeOn(log, log + replay, target)
    {
      ReplayHasTheSameLast(suffix, replay, target);
      LastForConcat(before, suffix, target);
      LastForConcat(log, replay, target);
      var k, r := LastFor(log, target), LastFor(replay, target);
      if r >= 0 {
        assert log[k] == suffix[r] && (log + replay)[|log| + r] == replay[r];
      } else if k >= 0 {
        assert (log + replay)[k] == log[k];
      }
    }
    LogsGiveTheSameIndexIff(log, log + replay);
  }

  // ---- the consumer ----

  datatype Body = BadJson | Envelope(event: Event)

  /** Panicked is the end of the process: writing a field into the payload null. */
  datatype Result = Indexed | Skipped | Refused | Panicked

  datatype Settlement = Settled(verdict: Broker.Verdict) | Crashed

  /** A delivery, and how long after the one before it comes. */
  datatype Message = Message(body: Body, header: Broker.DeathHeader, fate: Fate, wait: nat)

  class Indexer {
    var now: int
    var index: Index

    constructor (now: int)
      ensures this.now == now && index == map[]
    {
      this.now, index := now, map[];
    }

    /** PUT of a whole document; a path without an id is refused. */
    method IndexDocument(target: Target, doc: Document, fate: Fate) returns (failed: bool)
      modifies `index
      ensures failed == (fate.Lost? || target.id == "")
      ensures index == if fate.Applied() && target.id != "" then old(index)[target := doc] else old(index)
    {
      if target.id == "" { return true; }
      if fate.Applied() { index := index[target := doc]; }
      return fate.Lost?;
    }

    /** Stamps the payload, routes it, and replaces the document it belongs to. */
    method IndexEvent(e: Event, fate: Fate) returns (result: Result)
      modifies `index
      ensures index == if fate.Applied() then AfterEntry(old(index), Entry(e, now)) else old(index)
      ensures result.Panicked? <==> e.payload.Null?
      ensures result.Indexed? <==> fate.Answered? && Identified(e)
      ensures result.Skipped? <==> e.payload.Object? && OfNoIndex(e.kind)
      ensures result.Refused? <==>
                e.payload.Broken? || (e.payload.Object? && !OfNoIndex(e.kind) && (!Identified(e) || fate.Lost?))
    {
      if e.payload.Broken? { return Refused; }
      if e.payload.Null? { return Panicked; }
      var payload := e.payload.fields;
      payload := payload[INDEXED_AT := Time(now)];
      payload := payload[EVENT_TYPE := Text(e.kind)];
      StampsDoNotRoute(e, now);
      RouteByPrefix(e);
      var target := RouteEvent(e.kind, payload);
      if target.index == "" { return Skipped; }
      var failed := IndexDocument(target, payload, fate);
      assert Writes(e, target) <==> target.id != "";
      result := if failed then Refused else Indexed;
    }

    /** One delivery: malformed messages are dead-lettered, refused events requeued with backoff up to the limit and
        dead-lettered there, and the rest acknowledged, which means indexed or of a type that is not. */
    method ProcessMessage(msg: Message) returns (settlement: Settlement, ghost log: seq<Entry>)
      requires Broker.HeaderCount(msg.header) >= 0
      modifies `index
      ensures index == AfterLog(old(index), log)
      ensures log == if msg.body.Envelope? && msg.fate.Applied() then [Entry(msg.body.event, now)] else []
      ensures settlement.Crashed? <==> Poisonous(msg)
      ensures settlement == Settled(Broker.Ack) <==>
                msg.body.Envelope? && msg.body.event.payload.Object?
                && (OfNoIndex(msg.body.event.kind) || (msg.fate.Answered? && Identified(msg.body.event)))
      ensures var count := Broker.HeaderCount(msg.header);
              && (settlement == Settled(Broker.DeadLetter) <==> msg.body.BadJson? || (IsRefused(msg) && count >= 3))
              && (IsRefused(msg) && count == 0 ==> settlement == Settled(Broker.Requeue(1)))
              && (IsRefused(msg) && count == 1 ==> settlement == Settled(Broker.Requeue(2)))
              && (IsRefused(msg) && count == 2 ==> settlement == Settled(Broker.Requeue(4)))
    {
      log := [];
      if msg.body.BadJson? { return Settled(Broker.DeadLetter), log; }
      var retryCount := Broker.RetryCountFromHeaders(msg.header);
      var result := IndexEvent(msg.body.event, msg.fate);
      if msg.fate.Applied() {
        log := [Entry(msg.body.event, now)];
        assert log[..0] == [];
        assert AfterLog(old(index), log) == AfterEntry(AfterLog(old(index), []), log[0]);
      }
      if result.Panicked? { return Crashed, log; }
      if result.Refused? {
        Broker.VerdictsOneByOne(Broker.Failed, retryCount);
        if retryCount >= Broker.MAX_RETRIES { return Settled(Broker.DeadLetter), log; }
        return Settled(Broker.Requeue(Broker.Pow2(retryCount))), log;
      }
      return Settled(Broker.Ack), log;
    }

    /** The receive loop: the index follows the log of applied events, up to the first message that ends the process. */
    method Start(msgs: seq<Message>) returns (handled: nat, ghost log: seq<Entry>)
      requires forall k | 0 <= k < |msgs| :: Broker.HeaderCount(msgs[k].header) >= 0
      modifies `index, `now
      ensures index == AfterLog(old(index), log)
      ensures handled <= |msgs| && (forall k | 0 <= k < handled :: !Poisonous(msgs[k])) &&
              (handled < |msgs| ==> Poisonous(msgs[handled]))
      ensures log == AppliedEntries(msgs[..handled], old(now))
    {
      log, handled := [], 0;
      while handled < |msgs|
        invariant handled <= |msgs| && index == AfterLog(old(index), log)
        invariant forall k | 0 <= k < handled :: !Poisonous(msgs[k])
        invariant now == Clock(msgs[..handled], old(now)) && log == AppliedEntries(msgs[..handled], old(now))
      {
        assert msgs[..handled + 1][..handled] == msgs[..handled];
        now := now + msgs[handled].wait;
        var settlement;
        ghost var more;
        settlement, more := ProcessMessage(msgs[handled]);
        AfterLogConcat(old(index), log, more);
        if settlement.Crashed? { NullsChangeNothing(msgs[handled], AfterLog(old(index), log), now); return; }
        log := log + more;
        handled := handled + 1;
      }
    }
  }

  predicate Poisonous(msg: Message) { msg.body.Envelope? && msg.body.event.payload.Null? }

  /** Elasticsearch cannot be made to take the event: its payload is broken, it has no id, or the reply is lost. */
  ghost predicate IsRefused(msg: Message)
  {
    msg.body.Envelope? &&
    (msg.body.event.payload.Broken?
     || (msg.body.event.payload.Object? && !OfNoIndex(msg.body.event.kind) &&
          (!Identified(msg.body.event) || msg.fate.Lost?)))
  }

  /** The time after the given deliveries. */
  function Clock(msgs: seq<Message>, now: int): int
  {
    if msgs == [] then now else Clock(msgs[..|msgs| - 1], now) + msgs[|msgs| - 1].wait
  }

  /** The entries that deliveries leave behind, in order. */
  function AppliedEntries(msgs: seq<Message>, now: int): seq<Entry>
  {
    if msgs == [] then []
    else
      var msg := msgs[|msgs| - 1];
      AppliedEntries(msgs[..|msgs| - 1], now)
      + if msg.body.Envelope? && msg.fate.Applied() then [Entry(msg.body.event, Clock(msgs, now))] else []
  }

  lemma NullsChangeNothing(msg: Message, index: Index, now: int)
    requires Poisonous(msg)
    ensures AfterLog(index, [Entry(msg.body.event, now)]) == index
  {
    assert [Entry(msg.body.event, now)][..0] == [];
  }
}
