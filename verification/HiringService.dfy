/** Hiring's side of the handover as the service runs it, over the in-memory repository and a broker that may fail. */
module HiringService {
  import opened Prelude
  import opened Openings
  import opened Screening
  import opened Archive
  import opened Handover
  import opened Relay
  import MemoryRepository

  /** What becomes of one publish on the broker's side. */
  datatype Sending =
    | NoChannel                                 // not connected
    | PublishFails(queued: bool)                // the call fails, though the broker may have the message
    | Unanswered(queued: bool, handedBack: bool) // no confirm in time, or the connection is lost
    | Nacked
    | HandedBack                                // no queue takes it: returned, then confirmed
    | Queued                                    // in the queue and confirmed

  datatype SendError = Unavailable | NoQueue

  /** One send, and whether the database then takes the mark. */
  datatype Delivery = Delivery(sending: Sending, marks: bool)

  predicate Reaches(s: Sending) {
    s.Queued? || ((s.PublishFails? || s.Unanswered?) && s.queued)
  }

  /** Whether the broker puts the message on the channel of returns. */
  predicate Returns(s: Sending) {
    s.HandedBack? || (s.Unanswered? && s.handedBack)
  }

  predicate Confirmed(d: Delivery) {
    d.sending.Queued? && d.marks
  }

  /** The k-th request a pass sends. */
  function Message(bucket: string, i: Item, correlationId: string): Requested {
    RequestOf(bucket, i.jobOpeningId, i.criteria, i.entry, correlationId)
  }

  /** The requests of the items from one position up to another, oldest first. */
  function Messages(bucket: string, items: seq<Item>, correlation: nat -> string, from: nat, to: nat): seq<Requested>
    requires from <= to <= |items|
  {
    if from == to then []
    else Messages(bucket, items, correlation, from, to - 1) + [Message(bucket, items[to - 1], correlation(to - 1))]
  }

  lemma {:induction false} MessagesJoin(bucket: string, items: seq<Item>, correlation: nat -> string, mid: nat, to: nat)
    requires mid <= to <= |items|
    ensures Messages(bucket, items, correlation, 0, to)
        == Messages(bucket, items, correlation, 0, mid) + Messages(bucket, items, correlation, mid, to)
  {
    if mid < to {
      MessagesJoin(bucket, items, correlation, mid, to - 1);
    }
  }

  /** What a pass put into the queue: every confirmed request, and the one it failed at if the broker has it. */
  function Published(bucket: string, items: seq<Item>, correlation: nat -> string, outcome: nat -> Delivery,
                     from: nat, sent: nat, ok: bool): seq<Requested>
    requires from <= sent <= |items| && (ok || sent < |items|)
  {
    Messages(bucket, items, correlation, from, sent)
    + if !ok && Reaches(outcome(sent).sending) then [Message(bucket, items[sent], correlation(sent))] else []
  }

  lemma PublishedJoin(base: seq<Requested>, bucket: string, items: seq<Item>, correlation: nat -> string,
                      outcome: nat -> Delivery, mid: nat, sent: nat, ok: bool)
    requires mid <= sent <= |items| && (ok || sent < |items|)
    ensures base + Published(bucket, items, correlation, outcome, 0, mid, true)
        + Published(bucket, items, correlation, outcome, mid, sent, ok)
      == base + Published(bucket, items, correlation, outcome, 0, sent, ok)
  {
    MessagesJoin(bucket, items, correlation, mid, sent);
  }

  lemma NothingPublishedYet(found: seq<Batch>, bucket: string, items: seq<Item>, correlation: nat -> string,
                            outcome: nat -> Delivery)
    ensures Offset(found, 0) == 0 && Published(bucket, items, correlation, outcome, 0, 0, true) == []
  {
  }

  /** A request for this item: its file in the bucket, its opening, and its own batch's criteria. */
  ghost predicate AsksFor(m: Requested, bucket: string, i: Item, correlationId: string) {
    && m.key.batchId == i.entry.batchId && m.key.resumeId == i.entry.resumeId && m.jobOpeningId == i.jobOpeningId
    && m.bucket == bucket && m.objectKey == i.entry.objectKey && m.correlationId == correlationId
    && Lists(m.criteria, i.criteria)
  }

  /** What a pass publishes, message by message: one for each item in order, each under its own correlation id. */
  lemma {:induction false} MessagesSay(bucket: string, items: seq<Item>, correlation: nat -> string, from: nat, to: nat)
    requires from <= to <= |items|
    ensures |Messages(bucket, items, correlation, from, to)| == to - from
    ensures forall k :: from <= k < to ==>
      AsksFor(Messages(bucket, items, correlation, from, to)[k - from], bucket, items[k], correlation(k))
  {
    if from < to {
      MessagesSay(bucket, items, correlation, from, to - 1);
      var i := items[to - 1];
      RequestSays(bucket, i.jobOpeningId, i.criteria, i.entry, correlation(to - 1));
    }
  }

  lemma PublishedSays(bucket: string, items: seq<Item>, correlation: nat -> string, outcome: nat -> Delivery,
                      sent: nat, ok: bool)
    requires sent <= |items| && (ok || sent < |items|)
    ensures
      var published := Published(bucket, items, correlation, outcome, 0, sent, ok);
      var last := if ok then NoChannel else outcome(sent).sending;
      var reached := last.Queued? || (last.PublishFails? && last.queued) || (last.Unanswered? && last.queued);
      && |published| == sent + (if reached then 1 else 0)
      && forall k :: 0 <= k < |published| ==> AsksFor(published[k], bucket, items[k], correlation(k))
  {
    MessagesSay(bucket, items, correlation, 0, sent);
    if !ok {
      var i := items[sent];
      RequestSays(bucket, i.jobOpeningId, i.criteria, i.entry, correlation(sent));
    }
    hide Messages, AsksFor;
    if !ok && Reaches(outcome(sent).sending) {
      var i := items[sent];
      assert AsksFor(Message(bucket, i, correlation(sent)), bucket, i, correlation(sent));
    }
  }

  /** The publishing side of the broker: the requested queue, and the messages handed back and not looked at yet. */
  class Queue {
    var messages: seq<Requested>
    var handed: seq<string>

    constructor ()
      ensures messages == [] && handed == []
    {
      messages, handed := [], [];
    }

    /** Drains the handed-back messages and reports whether one was this message. */
    method Returned(messageId: string) returns (found: bool)
      modifies this`handed
      ensures handed == [] && (found <==> messageId in old(handed))
    {
      found := false;
      while handed != []
        invariant found || messageId in handed <==> messageId in old(handed)
        decreases |handed|
      {
        found := found || handed[0] == messageId;
        handed := handed[1..];
      }
    }

    /**
     * Publishes one request and succeeds only once the broker has confirmed that a queue holds it. A message
     * handed back late by an attempt that timed out makes the next attempt for the same resume fail, though
     * its own copy is queued: it is then sent once more.
     */
    method RequestScreening(bucket: string, b: Batch, e: Entry, correlationId: string, s: Sending)
      returns (r: Result<(), SendError>)
      requires e.batchId == b.id
      modifies this
      ensures r.Ok? <==> s.Queued? && e.resumeId !in old(handed)
      ensures r == Err(NoQueue) <==> s.HandedBack? || ((s.Queued? || s.Nacked?) && e.resumeId in old(handed))
      ensures messages == old(messages)
        + if Reaches(s) then [RequestOf(bucket, b.jobOpeningId, b.criteria, e, correlationId)] else []
      ensures
        if s.Queued? || (s.PublishFails? && s.queued) || (s.Unanswered? && s.queued)
        then |messages| == |old(messages)| + 1
             && AsksFor(messages[|messages| - 1], bucket, Item(b.jobOpeningId, b.criteria, e), correlationId)
        else messages == old(messages)
      ensures handed == if s.Queued? || s.Nacked? || s.HandedBack? then []
                         else if s.Unanswered? && s.handedBack then old(handed) + [e.resumeId] else old(handed)
    {
      var m := NewRequested(bucket, b, e, correlationId);
      if s.NoChannel? {
        return Err(Unavailable);
      }
      if Reaches(s) {
        messages := messages + [m];
      }
      if Returns(s) {
        handed := handed + [e.resumeId];
      }
      if s.PublishFails? || s.Unanswered? {
        return Err(Unavailable);
      }
      var back := Returned(e.resumeId);
      if back {
        return Err(NoQueue);
      }
      if s.Nacked? {
        return Err(Unavailable);
      }
      return Ok(());
    }
  }

  class Service {
    const batches: MemoryRepository.Repository
    const requested: Queue
    const bucket: string

    constructor (batches: MemoryRepository.Repository, requested: Queue, bucket: string)
      ensures this.batches == batches && this.requested == requested && this.bucket == bucket
    {
      this.batches, this.requested, this.bucket := batches, requested, bucket;
    }

    /** The body of the loop: one request sent and, once confirmed, marked. */
    method SendOne(b: Batch, e: Entry, d: Delivery, correlationId: string, at: Time) returns (ok: bool)
      requires batches.Valid() && Stored(batches.Value(), e.resumeId) && e.batchId == b.id
      modifies batches`batches, requested
      ensures batches.Valid()
      ensures ok <==> d.sending.Queued? && d.marks && e.resumeId !in old(requested.handed)
      ensures ok ==> requested.handed == []
      ensures batches.Value() == if ok then Mark(old(batches.Value()), e.resumeId, at) else old(batches.Value())
      ensures requested.messages == old(requested.messages)
        + if Reaches(d.sending) then [Message(bucket, Item(b.jobOpeningId, b.criteria, e), correlationId)] else []
    {
      var confirmed := requested.RequestScreening(bucket, b, e, correlationId, d.sending);
      if confirmed.Err? || !d.marks {
        return false;
      }
      var _ := batches.MarkRequested(e.resumeId, at);
      return true;
    }

    /** The inner loop: one batch's waiting resumes, the first of them item `start` of the pass. */
    method SendBatch(b: Batch, start: nat, outcome: nat -> Delivery, clock: nat -> Time, correlation: nat -> string,
                     ghost before: seq<Batch>, ghost items: seq<Item>)
      returns (sent: nat, ok: bool)
      requires batches.Valid() && Progress(before, items, outcome, clock, start, batches.Value())
      requires Ticks(clock)
      requires start + |b.entries| <= |items| && items[start..start + |b.entries|] == ItemsOf(b) && OwnEntries(b)
      modifies batches`batches, requested
      ensures batches.Valid() && start <= sent <= start + |b.entries|
      ensures ok <==> sent == start + |b.entries|
      ensures !ok ==> StopsAt(outcome, items, old(requested.handed), start, sent)
      ensures ok ==> requested.handed == if sent == start then old(requested.handed) else []
      ensures Progress(before, items, outcome, clock, sent, batches.Value())
      ensures requested.messages
          == old(requested.messages) + Published(bucket, items, correlation, outcome, start, sent, ok)
    {
      hide Progress, Message, Mark, Stored, MemoryRepository.Consistent, MemoryRepository.Listing;
      sent := start;
      for ei := 0 to |b.entries|
        invariant batches.Valid() && sent == start + ei
        invariant requested.handed == if sent == start then old(requested.handed) else []
        invariant Progress(before, items, outcome, clock, sent, batches.Value())
        invariant requested.messages == old(requested.messages) + Messages(bucket, items, correlation, start, sent)
      {
        assert items[sent] == items[start..start + |b.entries|][ei];
        OneMore(before, items, outcome, clock, sent, batches.Value());
        ok := SendOne(b, b.entries[ei], outcome(sent), correlation(sent), clock(sent));
        if !ok {
          return;
        }
        sent := sent + 1;
      }
      ok := true;
    }

    /**
     * One relay pass. It sends a prefix of the oldest 500 waiting resumes, each with its own batch's
     * snapshot, marks exactly the confirmed ones, and at the first failure leaves the rest as they were.
     */
    method PublishPendingRequests(outcome: nat -> Delivery, clock: nat -> Time, correlation: nat -> string)
      returns (sent: nat, ok: bool, ghost items: seq<Item>)
      requires batches.Valid() && WellFormed(batches.Value())
      requires Ticks(clock)
      modifies batches`batches, requested
      ensures batches.Valid() && WellFormed(batches.Value())
      ensures items == Items(UnrequestedOf(old(batches.Value()), PUBLISH_LIMIT))
      ensures |items| == (if |AllWaiting(old(batches.Value()))| < 500 then |AllWaiting(old(batches.Value()))| else 500)
      ensures sent <= |items| && (ok <==> sent == |items|)
      ensures !ok ==> StopsAt(outcome, items, old(requested.handed), 0, sent)
      ensures ok ==> requested.handed == if sent == 0 then old(requested.handed) else []
      ensures Progress(old(batches.Value()), items, outcome, clock, sent, batches.Value())
      ensures requested.messages
          == old(requested.messages) + Published(bucket, items, correlation, outcome, 0, sent, ok)
    {
      hide *;
      var found := batches.Unrequested(PUBLISH_LIMIT);
      ghost var before := batches.Value();
      items := Items(found);
      NothingSentYet(before, outcome, clock);
      AllItems(found);
      NothingPublishedYet(found, bucket, items, correlation, outcome);
      sent, ok := 0, true;
      for bi := 0 to |found|
        invariant batches.Valid() && sent == Offset(found, bi) <= |items|
        invariant requested.handed == if sent == 0 then old(requested.handed) else []
        invariant Progress(before, items, outcome, clock, sent, batches.Value())
        invariant requested.messages
            == old(requested.messages) + Published(bucket, items, correlation, outcome, 0, sent, true)
      {
        hide *;
        BatchInLine(before, found, bi);
        ghost var start := sent;
        sent, ok := SendBatch(found[bi], sent, outcome, clock, correlation, before, items);
        PublishedJoin(old(requested.messages), bucket, items, correlation, outcome, start, sent, ok);
        if !ok {
          StillStopped(outcome, items, old(requested.handed), start, sent);
          ProgressIsWellFormed(before, items, outcome, clock, sent, batches.Value());
          return;
        }
      }
      ProgressIsWellFormed(before, items, outcome, clock, sent, batches.Value());
      ok := true;
    }
  }

  const BROKER_UP := Delivery(Queued, true)

  /** The relay's passes while the broker is up: ceil(n / 500) of them leave nothing waiting, and no fewer do. */
  method RunPasses(service: Service, clocks: seq<nat -> Time>, correlation: nat -> string)
    requires service.batches.Valid() && WellFormed(service.batches.Value()) && service.requested.handed == []
    requires forall i :: 0 <= i < |clocks| ==> Ticks(clocks[i])
    modifies service.batches`batches, service.requested
    ensures service.batches.Valid() && service.batches.Value() == Passes(old(service.batches.Value()), clocks)
    ensures AllWaiting(service.batches.Value()) == [] <==>
      |clocks| >= (|AllWaiting(old(service.batches.Value()))| + 499) / 500
    decreases |clocks|
  {
    ghost var before := service.batches.Value();
    PassesDrain(before, clocks);
    if clocks != [] {
      var sent, ok, items := service.PublishPendingRequests(k => BROKER_UP, clocks[0], correlation);
      assert ok;
      FullProgressIsAPass(before, items, k => BROKER_UP, clocks[0], service.batches.Value());
      hide *;
      RunPasses(service, clocks[1..], correlation);
    }
  }

  /** n requests of the pass were confirmed: the first n of the line are marked, and wait no more. */
  ghost predicate Progress(before: seq<Batch>, items: seq<Item>, outcome: nat -> Delivery, clock: nat -> Time, n: nat,
                           now: seq<Batch>) {
    var waiting := AllWaiting(before);
    && |items| == (if |waiting| < PUBLISH_LIMIT then |waiting| else PUBLISH_LIMIT)
    && (forall k :: 0 <= k < |items| ==> items[k].entry == waiting[k])
    && n <= |items| && (forall k :: 0 <= k < n ==> Confirmed(outcome(k)))
    && now == Marked(before, ResumeIds(waiting), clock, n)
    && WellFormed(now) && AllWaiting(now) == waiting[n..]
  }

  /**
   * Why a pass stops at an item: it was not confirmed or not marked - or, for the first it sends, a copy of an
   * earlier attempt had been handed back.
   */
  predicate StopsAt(outcome: nat -> Delivery, items: seq<Item>, handed: seq<string>, first: nat, at: nat) {
    at < |items| && (!Confirmed(outcome(at)) || (at == first && items[at].entry.resumeId in handed))
  }

  lemma StillStopped(outcome: nat -> Delivery, items: seq<Item>, handed: seq<string>, start: nat, at: nat)
    requires StopsAt(outcome, items, if start == 0 then handed else [], start, at)
    ensures StopsAt(outcome, items, handed, 0, at)
  {
  }

  /** A pass in which everything was sent is a Pass. */
  lemma FullProgressIsAPass(before: seq<Batch>, items: seq<Item>, outcome: nat -> Delivery, clock: nat -> Time,
      now: seq<Batch>)
    requires Progress(before, items, outcome, clock, |items|, now)
    ensures now == Pass(before, clock)
  {
  }

  lemma NothingSentYet(a: seq<Batch>, outcome: nat -> Delivery, clock: nat -> Time)
    requires WellFormed(a)
    ensures Progress(a, Items(UnrequestedOf(a, PUBLISH_LIMIT)), outcome, clock, 0, a)
    ensures Offset(UnrequestedOf(a, PUBLISH_LIMIT), 0) == 0
  {
    ItemsAreTheLine(a);
  }

  lemma ProgressIsWellFormed(before: seq<Batch>, items: seq<Item>, outcome: nat -> Delivery, clock: nat -> Time,
                             n: nat, now: seq<Batch>)
    requires Progress(before, items, outcome, clock, n, now)
    ensures |items| == if |AllWaiting(before)| < 500 then |AllWaiting(before)| else 500
    ensures WellFormed(now) && n <= |items|
  {
  }

  lemma ItemsAreTheLine(a: seq<Batch>)
    ensures
      var items, waiting := Items(UnrequestedOf(a, PUBLISH_LIMIT)), AllWaiting(a);
      && |items| == (if |waiting| < PUBLISH_LIMIT then |waiting| else PUBLISH_LIMIT)
      && forall k :: 0 <= k < |items| ==> items[k].entry == waiting[k]
  {
    UnrequestedIsThePrefix(a, PUBLISH_LIMIT);
    ItemsAreFlat(UnrequestedOf(a, PUBLISH_LIMIT));
  }

  /** The next item is still the head of the line, and once confirmed and marked it is progress. */
  lemma OneMore(a: seq<Batch>, items: seq<Item>, outcome: nat -> Delivery, clock: nat -> Time, sent: nat,
                now: seq<Batch>)
    requires Progress(a, items, outcome, clock, sent, now) && sent < |items| && clock(sent) != ZERO_TIME
    ensures Stored(now, items[sent].entry.resumeId)
    ensures Confirmed(outcome(sent)) ==>
      Progress(a, items, outcome, clock, sent + 1, Mark(now, items[sent].entry.resumeId, clock(sent)))
  {
    hide WellFormed, AllWaiting, Mark, Marked, Stored, Confirmed;
    OneMoreOf(a, AllWaiting(a), clock, sent + 1);
    HeadOfTheLine(now, clock(sent));
    OneMoreMarked(AllWaiting(a), now, clock(sent), sent + 1);
  }

  /** A batch's waiting entries are the next items, and carry its id. */
  lemma BatchInLine(a: seq<Batch>, found: seq<Batch>, bi: nat)
    requires WellFormed(a) && found == UnrequestedOf(a, PUBLISH_LIMIT) && bi < |found|
    ensures Offset(found, bi + 1) == Offset(found, bi) + |found[bi].entries| <= |Items(found)|
    ensures Items(found)[Offset(found, bi)..Offset(found, bi + 1)] == ItemsOf(found[bi])
    ensures OwnEntries(found[bi])
  {
    hide WellFormed, UnrequestedOf, Items, Offset;
    NextOffset(found, bi);
    OffsetBounded(found, bi + 1);
    forall k | 0 <= k < |found[bi].entries|
      ensures Items(found)[Offset(found, bi)..Offset(found, bi + 1)][k] == ItemsOf(found[bi])[k]
    {
      ItemAt(found, bi, k);
    }
    forall k | 0 <= k < |found[bi].entries|
      ensures found[bi].entries[k].batchId == found[bi].id
    {
      UnrequestedKeepsIds(a, PUBLISH_LIMIT, bi, k);
    }
  }

  predicate OwnEntries(b: Batch) {
    forall k :: 0 <= k < |b.entries| ==> b.entries[k].batchId == b.id
  }

  lemma ClippedKeepsIds(a: seq<Batch>, limit: nat, ei: nat)
    requires WellFormed(a) && a != [] && ei < |Clip(WaitingOnly(a[0].entries), limit)|
    ensures Clip(WaitingOnly(a[0].entries), limit)[ei].batchId == a[0].id
  {
    WaitingOnlyIs(a[0].entries);
    assert Clip(WaitingOnly(a[0].entries), limit)[ei] in WaitingOnly(a[0].entries);
    var k :| 0 <= k < |a[0].entries| && a[0].entries[k] == Clip(WaitingOnly(a[0].entries), limit)[ei];
    assert EntryAt(a, 0, k);
  }

  lemma {:induction false} UnrequestedKeepsIds(a: seq<Batch>, limit: nat, bi: nat, ei: nat)
    requires WellFormed(a) && bi < |UnrequestedOf(a, limit)| && ei < |UnrequestedOf(a, limit)[bi].entries|
    ensures UnrequestedOf(a, limit)[bi].entries[ei].batchId == UnrequestedOf(a, limit)[bi].id
    decreases |a|
  {
    var some := Clip(WaitingOnly(a[0].entries), limit);
    var rest := UnrequestedOf(a[1..], limit - |some|);
    WellFormedRest(a);
    if some == [] {
      assert UnrequestedOf(a, limit) == rest;
      UnrequestedKeepsIds(a[1..], limit - |some|, bi, ei);
    } else {
      assert UnrequestedOf(a, limit) == [a[0].(entries := some)] + rest;
      if bi == 0 {
        ClippedKeepsIds(a, limit, ei);
      } else {
        UnrequestedKeepsIds(a[1..], limit - |some|, bi - 1, ei);
      }
    }
    hide *;
  }
}
