/**
 * The screening handover between Hiring and Resume Processing as one transition system: the broker's
 * queues as bags of copies, deliveries in flight, both services' rows, and every point at which a
 * publish, a confirm, a write or an acknowledgement can fail to happen.
 */
module Protocol {
  import opened Prelude
  import opened CriterionIds
  import opened Openings
  import opened Screening
  import opened Handover
  import opened Pipeline
  import Archive
  import Passes = Relay

  // ---------- State ----------

  /** What the batch of an entry contributes to its request and to judging its answer. */
  datatype Context = Context(jobOpeningId: string, criteria: seq<Criterion>)

  /** A request delivered to Resume Processing: not handled yet, or handled with publications still to be taken. */
  datatype Stage = Received | Settling(outbox: seq<Publication>)

  datatype Work = Work(request: Request, stage: Stage)

  /** Hiring's one result consumer, which loads and saves in separate steps. */
  datatype Consumer =
    | Idle
    | Holding(answer: Completed)
    | Loaded(answer: Completed, entry: Entry)
    | Refusing(answer: Completed)   // about to copy it to Hiring's dead letters
    | Settled(answer: Completed)    // only the acknowledgement is left

  /** Hiring's relay: at rest, or working through a list, its head published or not. */
  datatype Relay = Resting | Relaying(todo: seq<Key>, published: bool)

  /** A Recruiter's request between its load and its save: the entry it is about to store. */
  datatype Decision = Decision(key: Key, entry: Entry)

  datatype Choice = OverrideTo(score: int, at: Time) | ShortlistAt(at: Time)

  datatype State = State(
    limits: Limits,
    bucket: string,
    entries: map<Key, Entry>,
    contexts: map<Key, Context>,
    line: seq<Key>,         // every resume, in submission order
    relay: Relay,
    givenUp: multiset<Key>, // publishes the relay stopped waiting for, which the broker may still take
    requested: multiset<Request>,
    retrying: multiset<Request>,
    dead: multiset<Request>,
    working: multiset<Work>,
    rows: map<Key, Row>,
    issued: nat,
    completed: multiset<Completed>,
    refused: multiset<Completed>,
    consumer: Consumer,
    decisions: multiset<Decision>)

  ghost predicate Init(s: State) {
    && s.bucket != ""
    && s.entries == map[] && s.contexts == map[] && s.rows == map[] && s.line == []
    && s.relay == Resting && s.givenUp == multiset{} && s.consumer == Idle && s.decisions == multiset{}
    && s.requested == multiset{} && s.retrying == multiset{} && s.dead == multiset{} && s.working == multiset{}
    && s.completed == multiset{} && s.refused == multiset{}
  }

  // ---------- Steps ----------

  datatype Step =
    | Submit(context: Context, order: seq<Key>, added: map<Key, Entry>) // a batch is accepted and saved
    | RelayStart                        // a pass loads the oldest unrequested entries
    | RelayPublish(correlationId: string) // the broker takes the head's request
    | RelayMark(at: Time)               // its confirm arrived, and the entry is marked
    | RelayStop                         // the pass ends, fails or crashes, wherever it is
    | LatePublish(key: Key, correlationId: string) // the broker takes a publish that was given up on
    | Deliver(request: Request)
    | HandleDelivery(request: Request, world: World, jitter: real, recordError: bool)
    | Take(work: Work)                  // the broker takes the next publication of a delivery
    | Acknowledge(work: Work)           // everything is confirmed: the delivery is done
    | Requeue(work: Work)               // nack, lost channel or crash, wherever it is
    | Expire(request: Request)          // a retry's delay is over
    | Replay(request: Request, acked: bool) // the operator moves a dead letter back; unacked, it stays too
    | Consume(answer: Completed)
    | LoadEntry
    | SaveResult(at: Time)
    | RefuseAnswer
    | AckAnswer
    | ReturnAnswer                      // nack, lost channel or crash
    | Decide(key: Key, choice: Choice)  // a Recruiter's request loads and applies its change
    | SaveDecision(decision: Decision)
    | DropDecision(decision: Decision)

  function KeyOf(r: Request): Key
    requires r.body.Some?
  {
    r.body.value.key
  }

  function BodyOf(s: State, k: Key, correlationId: string): Requested
    requires k in s.entries && k in s.contexts
  {
    RequestOf(s.bucket, s.contexts[k].jobOpeningId, s.contexts[k].criteria, s.entries[k], correlationId)
  }

  predicate Unrequested(e: Entry) {
    e.status == Pending && e.requestedAt == ZERO_TIME
  }

  /** The resumes still to be requested, oldest first. */
  function Waiting(line: seq<Key>, entries: map<Key, Entry>): (w: seq<Key>)
    ensures forall k :: k in w ==> k in line && k in entries && Unrequested(entries[k])
  {
    if line == [] then []
    else (if line[0] in entries && Unrequested(entries[line[0]]) then [line[0]] else []) + Waiting(line[1..], entries)
  }

  /** What a pass works through. */
  function NextPass(s: State): (todo: seq<Key>)
    ensures forall k :: k in todo ==> k in s.entries && Unrequested(s.entries[k])
  {
    Archive.Clip(Waiting(s.line, s.entries), Passes.PUBLISH_LIMIT)
  }

  /** An entry as a newly saved batch holds it. */
  predicate NewlySubmitted(k: Key, e: Entry) {
    && k.batchId != "" && k.resumeId != "" && e.objectKey != ""
    && e == Submitted(k.batchId, NewEntry(k.resumeId, e.fileName, e.objectKey, e.sizeBytes))
  }

  /** SaveEntry: the decided part of e over the stored entry. */
  function Saved(stored: Entry, e: Entry): Entry {
    stored.(status := e.status, result := e.result, correction := e.correction, shortlistedAt := e.shortlistedAt)
  }

  /** A Recruiter's change on a loaded entry; None when the domain refuses it. */
  function Decided(e: Entry, c: Choice): Option<Entry> {
    match c
    case OverrideTo(score, at) =>
      if e.status == ScreenedOk && 0 <= score <= MAX_SCORE then Some(Overridden(e, score, at)) else None
    case ShortlistAt(at) =>
      if e.status == ScreenedOk && e.shortlistedAt == ZERO_TIME then Some(Shortlisted(e, at)) else None
  }

  /** The answer's verdict on the entry Hiring loaded: kept, ignored as a repeat, or refused. */
  datatype Ruling = Keep(entry: Entry) | Ignore | Refuse

  ghost function Rule(criteria: seq<Criterion>, e: Entry, reading: Reading, at: Time): Ruling {
    var r := reading.result.(completedAt := at);
    if e.status != Pending then Ignore
    else if !Recordable(criteria, reading.status, r) then Refuse
    else Keep(Recorded(e, reading.status, r))
  }

  ghost predicate Enabled(s: State, step: Step) {
    match step
    case Submit(c, order, added) =>
      && ScorableCriteria(c.criteria) && |c.criteria| <= MAX_INT && (forall k :: k in added <==> k in order)
      && forall k :: k in added ==> k !in s.entries && NewlySubmitted(k, added[k])
    case RelayStart => s.relay == Resting
    case RelayPublish(_) =>
      s.relay.Relaying? && !s.relay.published && |s.relay.todo| > 0
      && s.relay.todo[0] in s.entries && s.relay.todo[0] in s.contexts
    case RelayMark(at) =>
      s.relay.Relaying? && s.relay.published && |s.relay.todo| > 0 && s.relay.todo[0] in s.entries && at != ZERO_TIME
    case RelayStop => true
    case LatePublish(k, _) => k in s.givenUp && k in s.entries && k in s.contexts
    case Deliver(r) => r in s.requested
    case HandleDelivery(r, _, _, _) => Work(r, Received) in s.working && r.body.Some?
    case Take(w) => w in s.working && w.stage.Settling? && |w.stage.outbox| > 0
    case Acknowledge(w) => w in s.working && w.stage == Settling([])
    case Requeue(w) => w in s.working
    case Expire(r) => r in s.retrying
    case Replay(r, _) => r in s.dead
    case Consume(a) => s.consumer == Idle && a in s.completed
    case LoadEntry => s.consumer.Holding?
    case SaveResult(_) =>
      s.consumer.Loaded? && ReadAnswer(s.consumer.answer).Some?
      && s.consumer.answer.key in s.entries && s.consumer.answer.key in s.contexts
    case RefuseAnswer => s.consumer.Refusing?
    case AckAnswer => s.consumer.Settled?
    case ReturnAnswer => s.consumer != Idle
    case Decide(k, c) => k in s.entries && Decided(s.entries[k], c).Some?
    case SaveDecision(d) => d in s.decisions && d.key in s.entries
    case DropDecision(d) => d in s.decisions
  }

  function RowAt(s: State, k: Key): Option<Row> {
    if k in s.rows then Some(s.rows[k]) else None
  }

  /** The state once the broker has taken one publication. */
  function Published(s: State, p: Publication): (t: State)
    ensures t.rows == s.rows && t.entries == s.entries
  {
    match p
    case Answered(a) => s.(completed := s.completed + multiset{a})
    case Retried(r, _) => s.(retrying := s.retrying + multiset{r})
    case DeadLettered(r, _) => s.(dead := s.dead + multiset{r})
  }

  /** The copies of requests still to be handled are where they were. */
  ghost predicate SameRequests(s: State, t: State) {
    t.limits == s.limits && t.requested == s.requested && t.retrying == s.retrying && t.working == s.working
  }

  // Where each step leads, one function a step so that each can be reasoned about alone.

  function AfterSubmit(s: State, c: Context, order: seq<Key>, added: map<Key, Entry>): (t: State)
    ensures t.rows == s.rows && SameRequests(s, t)
  {
    s.(entries := s.entries + added, contexts := s.contexts + map k | k in added :: c, line := s.line + order)
  }

  function AfterPublish(s: State, k: Key, correlationId: string): (t: State)
    requires k in s.entries && k in s.contexts
    ensures t.rows == s.rows && t.entries == s.entries
  {
    s.(requested := s.requested + multiset{Request(Some(BodyOf(s, k, correlationId)), 0)})
  }

  /** A publish the broker has not taken yet may still reach it after the pass has ended. */
  function AfterStop(s: State): (t: State)
    ensures t.rows == s.rows && t.entries == s.entries && SameRequests(s, t)
  {
    var waiting := s.relay.Relaying? && !s.relay.published && |s.relay.todo| > 0;
    s.(relay := Resting, givenUp := if waiting then s.givenUp + multiset{s.relay.todo[0]} else s.givenUp)
  }

  function AfterLatePublish(s: State, k: Key, correlationId: string): (t: State)
    requires k in s.entries && k in s.contexts
    ensures t.rows == s.rows && t.entries == s.entries
  {
    AfterPublish(s, k, correlationId).(givenUp := s.givenUp - multiset{k})
  }

  function AfterMark(s: State, at: Time): (t: State)
    requires s.relay.Relaying? && |s.relay.todo| > 0 && s.relay.todo[0] in s.entries
    ensures t.rows == s.rows && SameRequests(s, t)
  {
    var k := s.relay.todo[0];
    s.(relay := Relaying(s.relay.todo[1..], false), entries := s.entries[k := s.entries[k].(requestedAt := at)])
  }

  function AfterDeliver(s: State, r: Request): (t: State)
    ensures t.rows == s.rows && t.entries == s.entries
  {
    s.(requested := s.requested - multiset{r}, working := s.working + multiset{Work(r, Received)})
  }

  function AfterHandle(s: State, r: Request, h: Handled): (t: State)
    requires r.body.Some?
    ensures t.entries == s.entries
  {
    s.(rows := WithRow(s.rows, KeyOf(r), h.row), issued := h.issued,
       working := s.working - multiset{Work(r, Received)} + multiset{Work(r, Settling(h.outbox))})
  }

  function AfterTake(s: State, w: Work): (t: State)
    requires w.stage.Settling? && |w.stage.outbox| > 0
    ensures t.rows == s.rows && t.entries == s.entries
  {
    Published(s, w.stage.outbox[0]).(
      working := s.working - multiset{w} + multiset{w.(stage := Settling(w.stage.outbox[1..]))})
  }

  function AfterAcknowledge(s: State, w: Work): (t: State)
    ensures t.rows == s.rows && t.entries == s.entries
  {
    s.(working := s.working - multiset{w})
  }

  function AfterRequeue(s: State, w: Work): (t: State)
    ensures t.rows == s.rows && t.entries == s.entries
  {
    s.(working := s.working - multiset{w}, requested := s.requested + multiset{w.request})
  }

  function AfterExpire(s: State, r: Request): (t: State)
    ensures t.rows == s.rows && t.entries == s.entries
  {
    s.(retrying := s.retrying - multiset{r}, requested := s.requested + multiset{r})
  }

  function AfterReplay(s: State, r: Request, acked: bool): (t: State)
    ensures t.rows == s.rows && t.entries == s.entries
  {
    s.(dead := if acked then s.dead - multiset{r} else s.dead, requested := s.requested + multiset{r.(attempt := 0)})
  }

  function AfterConsume(s: State, a: Completed): (t: State)
    ensures t.rows == s.rows && t.entries == s.entries && SameRequests(s, t)
  {
    s.(completed := s.completed - multiset{a}, consumer := Holding(a))
  }

  ghost function AfterLoad(s: State): (t: State)
    requires s.consumer.Holding?
    ensures t.rows == s.rows && t.entries == s.entries && SameRequests(s, t)
  {
    var a := s.consumer.answer;
    if ReadAnswer(a) == None || a.key !in s.entries then s.(consumer := Refusing(a))
    else s.(consumer := Loaded(a, s.entries[a.key]))
  }

  function AfterSave(s: State, k: Key, e: Entry): (t: State)
    requires k in s.entries
    ensures t.rows == s.rows && SameRequests(s, t)
  {
    s.(entries := s.entries[k := Saved(s.entries[k], e)])
  }

  ghost function AfterSaveResult(s: State, at: Time): (t: State)
    requires s.consumer.Loaded? && ReadAnswer(s.consumer.answer).Some?
    requires s.consumer.answer.key in s.entries && s.consumer.answer.key in s.contexts
    ensures t.rows == s.rows && SameRequests(s, t)
  {
    var a, k := s.consumer.answer, s.consumer.answer.key;
    match Rule(s.contexts[k].criteria, s.consumer.entry, ReadAnswer(a).value, at)
    case Keep(e) => AfterSave(s, k, e).(consumer := Settled(a))
    case Ignore => s.(consumer := Settled(a))
    case Refuse => s.(consumer := Refusing(a))
  }

  function AfterRefuse(s: State): (t: State)
    requires s.consumer.Refusing?
    ensures t.rows == s.rows && t.entries == s.entries && SameRequests(s, t)
  {
    s.(refused := s.refused + multiset{s.consumer.answer}, consumer := Settled(s.consumer.answer))
  }

  function AfterReturn(s: State): (t: State)
    requires s.consumer != Idle
    ensures t.rows == s.rows && t.entries == s.entries && SameRequests(s, t)
  {
    s.(completed := s.completed + multiset{s.consumer.answer}, consumer := Idle)
  }

  function AfterDecide(s: State, d: Decision): (t: State)
    ensures t.rows == s.rows && t.entries == s.entries && SameRequests(s, t)
  {
    s.(decisions := s.decisions + multiset{d})
  }

  function AfterDrop(s: State, d: Decision): (t: State)
    ensures t.rows == s.rows && t.entries == s.entries && SameRequests(s, t)
  {
    s.(decisions := s.decisions - multiset{d})
  }

  ghost function Next(s: State, step: Step): State
    requires Enabled(s, step)
  {
    match step
    case Submit(c, order, added) => AfterSubmit(s, c, order, added)
    case RelayStart => s.(relay := Relaying(NextPass(s), false))
    case RelayPublish(id) => AfterPublish(s, s.relay.todo[0], id).(relay := s.relay.(published := true))
    case RelayMark(at) => AfterMark(s, at)
    case RelayStop => AfterStop(s)
    case LatePublish(k, id) => AfterLatePublish(s, k, id)
    case Deliver(r) => AfterDeliver(s, r)
    case HandleDelivery(r, w, jitter, recordError) =>
      AfterHandle(s, r, AfterDelivery(s.limits, r, RowAt(s, KeyOf(r)), s.issued, w, jitter, recordError))
    case Take(w) => AfterTake(s, w)
    case Acknowledge(w) => AfterAcknowledge(s, w)
    case Requeue(w) => AfterRequeue(s, w)
    case Expire(r) => AfterExpire(s, r)
    case Replay(r, acked) => AfterReplay(s, r, acked)
    case Consume(a) => AfterConsume(s, a)
    case LoadEntry => AfterLoad(s)
    case SaveResult(at) => AfterSaveResult(s, at)
    case RefuseAnswer => AfterRefuse(s)
    case AckAnswer => s.(consumer := Idle)
    case ReturnAnswer => AfterReturn(s)
    case Decide(k, c) => AfterDecide(s, Decision(k, Decided(s.entries[k], c).value))
    case SaveDecision(d) => AfterSave(AfterDrop(s, d), d.key, d.entry)
    case DropDecision(d) => AfterDrop(s, d)
  }

  /** A run: each step is possible where the ones before it lead. */
  ghost predicate CanRun(s: State, steps: seq<Step>)
    decreases |steps|
  {
    |steps| == 0 || (Enabled(s, steps[0]) && CanRun(Next(s, steps[0]), steps[1..]))
  }

  ghost function After(s: State, steps: seq<Step>): State
    requires CanRun(s, steps)
    decreases |steps|
  {
    if |steps| == 0 then s else After(Next(s, steps[0]), steps[1..])
  }

  // ---------- Where a resume's work can be ----------

  /** A delivery that still stands for its request: not handled yet, or with more to publish than a failure. */
  ghost predicate Live(w: Work) {
    w.stage.Received? || exists i :: 0 <= i < |w.stage.outbox| && Carries(w.stage.outbox[i])
  }

  /** The last word on a resume: an answer that it was scored, or cannot be read. */
  predicate IsFinal(a: Completed, k: Key) {
    a.key == k && a.status != FailedScreening
  }

  predicate Concerns(r: Request, k: Key) {
    r.body.Some? && r.body.value.key == k
  }

  ghost predicate HasRequest(s: State, k: Key) {
    || (exists r :: r in s.requested && Concerns(r, k))
    || (exists r :: r in s.retrying && Concerns(r, k))
    || (exists r :: r in s.dead && Concerns(r, k))
    || (exists w :: w in s.working && Live(w) && Concerns(w.request, k))
  }

  ghost predicate HasAnswer(s: State, k: Key) {
    || (exists a :: a in s.completed && IsFinal(a, k))
    || (exists a :: a in s.refused && IsFinal(a, k))
    || ((s.consumer.Holding? || s.consumer.Loaded? || s.consumer.Refusing?) && IsFinal(s.consumer.answer, k))
  }

  ghost predicate Located(s: State, k: Key) {
    HasRequest(s, k) || HasAnswer(s, k)
  }

  ghost predicate BeingMarked(s: State, k: Key) {
    s.relay.Relaying? && s.relay.published && |s.relay.todo| > 0 && s.relay.todo[0] == k
  }

  /** Pending, and either marked requested or about to be. */
  ghost predicate AwaitsAnswer(s: State, k: Key)
    requires k in s.entries
  {
    s.entries[k].status == Pending && (s.entries[k].requestedAt != ZERO_TIME || BeingMarked(s, k))
  }

  /** Every pending entry that is not still waiting to be sent is somewhere a step can take it further. */
  ghost predicate NoneLost(s: State) {
    forall k :: k in s.entries && AwaitsAnswer(s, k) ==> Located(s, k)
  }
}
