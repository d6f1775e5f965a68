/**
 * The bodies of the screening handover and everything that turns one into the next: Hiring's request,
 * Resume Processing's row, its answer, and the answer as Hiring reads it.
 */
module Handover {
  import opened Prelude
  import opened Openings
  import opened Screening
  import opened CriterionIds
  import Scoring

  // ---------- Messages ----------

  /** (batch_id, resume_id): the key that makes a repeat recognisable. */
  datatype Key = Key(batchId: string, resumeId: string)

  /** A criterion as Hiring sends it, weight and all. */
  datatype SentCriterion = SentCriterion(id: string, text: string, mustHave: bool, weight: int)

  datatype Requested = Requested(
    key: Key,
    jobOpeningId: string,
    bucket: string,
    objectKey: string,
    criteria: seq<SentCriterion>,
    correlationId: string)

  datatype MessageStatus = Scored | Unparsable | FailedScreening | OtherStatus(text: string)

  /** An absent score, verdict or error is None; an absent id reads as the empty text. */
  datatype Completed = Completed(
    key: Key,
    jobOpeningId: string,
    candidateId: string,
    status: MessageStatus,
    score: Option<int>,
    meetsMustHaves: Option<bool>,
    unmetMustHaveIds: seq<string>,
    error: Option<string>,
    correlationId: string)

  // ---------- Hiring's request ----------

  function Sent(position: nat, c: Criterion): SentCriterion {
    SentCriterion(CriterionID(position), c.name, c.classification == MustHave, c.weight)
  }

  function SentCriteria(criteria: seq<Criterion>): seq<SentCriterion> {
    seq(|criteria|, i requires 0 <= i < |criteria| => Sent(i, criteria[i]))
  }

  function RequestOf(bucket: string, jobOpeningId: string, criteria: seq<Criterion>, e: Entry,
                     correlationId: string): Requested {
    Requested(Key(e.batchId, e.resumeId), jobOpeningId, bucket, e.objectKey, SentCriteria(criteria), correlationId)
  }

  /** Each criterion of the snapshot at its place, under the id of that place, with all that was said of it. */
  ghost predicate Lists(sent: seq<SentCriterion>, criteria: seq<Criterion>) {
    && |sent| == |criteria|
    && forall p: nat :: p < |criteria| ==>
         && sent[p].id == CriterionID(p) && sent[p].text == criteria[p].name
         && (sent[p].mustHave <==> criteria[p].classification.MustHave?) && sent[p].weight == criteria[p].weight
  }

  /** What a request says, part by part: the file is where the entry's object is, in the system's bucket. */
  lemma RequestSays(bucket: string, jobOpeningId: string, criteria: seq<Criterion>, e: Entry, correlationId: string)
    ensures
      var m := RequestOf(bucket, jobOpeningId, criteria, e, correlationId);
      && m.key.batchId == e.batchId && m.key.resumeId == e.resumeId && m.jobOpeningId == jobOpeningId
      && m.bucket == bucket && m.objectKey == e.objectKey && m.correlationId == correlationId
      && Lists(m.criteria, criteria)
  {
  }

  /** NewRequested: every criterion under the id of its position, nothing else changed. */
  method NewRequested(bucket: string, b: Batch, e: Entry, correlationId: string) returns (m: Requested)
    requires e.batchId == b.id
    ensures m == RequestOf(bucket, b.jobOpeningId, b.criteria, e, correlationId)
    ensures m.key.batchId == b.id && m.key.resumeId == e.resumeId && m.jobOpeningId == b.jobOpeningId
    ensures m.bucket == bucket && m.objectKey == e.objectKey && m.correlationId == correlationId
    ensures Lists(m.criteria, b.criteria)
  {
    var criteria: seq<SentCriterion> := [];
    for i := 0 to |b.criteria|
      invariant criteria == SentCriteria(b.criteria)[..i]
    {
      var c := b.criteria[i];
      criteria := criteria + [SentCriterion(CriterionID(i), c.name, c.classification == MustHave, c.weight)];
    }
    m := Requested(Key(b.id, e.resumeId), b.jobOpeningId, bucket, e.objectKey, criteria, correlationId);
  }

  // ---------- The criteria, as the AI Service receives them ----------

  const UINT32 := 0x1_0000_0000

  /** toCriterion, its weight encoded as the contract's uint32: other weights wrap around. */
  function AsReceived(c: SentCriterion): Scoring.Criterion {
    Scoring.Criterion(c.id, c.text, c.mustHave, c.weight % UINT32)
  }

  function ReceivedCriteria(criteria: seq<SentCriterion>): seq<Scoring.Criterion> {
    seq(|criteria|, i requires 0 <= i < |criteria| => AsReceived(criteria[i]))
  }

  /** The criteria of a batch on arrival at the AI Service. */
  function WireCriteria(criteria: seq<Criterion>): seq<Scoring.Criterion> {
    ReceivedCriteria(SentCriteria(criteria))
  }

  /** On arrival nothing is missing either; a weight is what it was as far as it fits the wire, and wraps beyond. */
  lemma ArrivesAsSent(criteria: seq<Criterion>, p: nat)
    requires p < |criteria|
    ensures
      var arrived, c := WireCriteria(criteria), criteria[p];
      && |arrived| == |criteria|
      && arrived[p].id == CriterionID(p) && arrived[p].text == c.name
      && (arrived[p].mustHave <==> c.classification.MustHave?)
      && (arrived[p].weight == c.weight <==> 0 <= c.weight <= 4_294_967_295)
      && arrived[p].weight <= 4_294_967_295 && (arrived[p].weight - c.weight) % 4_294_967_296 == 0
  {
  }

  // ---------- Resume Processing's row, and the answer made from it ----------

  datatype RowStatus = Processing | RowScored | RowUnparsable | RowFailed

  datatype Row = Row(
    key: Key,
    jobOpeningId: string,
    candidateId: Option<string>,
    status: RowStatus,
    score: int,
    meetsMustHaves: bool,
    unmetMustHaveIds: seq<string>,
    error: Option<string>,
    attempts: nat)

  predicate Final(r: Row) {
    r.status == RowScored || r.status == RowUnparsable
  }

  function WireStatus(s: RowStatus): MessageStatus {
    match s
    case RowScored => Scored
    case RowUnparsable => Unparsable
    case RowFailed => FailedScreening
    case Processing => OtherStatus("processing")
  }

  /** toCompleted. */
  function ToCompleted(r: Row, correlationId: string): Completed {
    Completed(r.key, r.jobOpeningId, r.candidateId.GetOr(""), WireStatus(r.status),
              if r.status == RowScored then Some(r.score) else None,
              if r.status == RowScored then Some(r.meetsMustHaves) else None,
              r.unmetMustHaveIds, r.error, correlationId)
  }

  /** An answer's parts are the row's, under the request's correlation id; score and verdict only when scored. */
  lemma AnswerSays(r: Row, correlationId: string)
    ensures
      var a := ToCompleted(r, correlationId);
      && a.key == r.key && a.jobOpeningId == r.jobOpeningId && a.correlationId == correlationId
      && a.candidateId == (if r.candidateId.Some? then r.candidateId.value else "")
      && (a.status.Scored? <==> r.status.RowScored?) && (a.status.Unparsable? <==> r.status.RowUnparsable?)
      && (a.status.FailedScreening? <==> r.status.RowFailed?)
      && a.score == (if r.status.RowScored? then Some(r.score) else None)
      && a.meetsMustHaves == (if r.status.RowScored? then Some(r.meetsMustHaves) else None)
      && a.unmetMustHaveIds == r.unmetMustHaveIds && a.error == r.error
  {
  }

  /** validate: what a request must carry before any work is done on it. */
  predicate ValidRequest(m: Requested) {
    && m.key.batchId != "" && m.key.resumeId != ""
    && m.bucket != "" && m.objectKey != ""
    && |m.criteria| > 0
    && forall i :: 0 <= i < |m.criteria| ==> m.criteria[i].id != "" && m.criteria[i].text != ""
  }

  // ---------- The answer, as Hiring reads it ----------

  datatype Reading = Reading(status: EntryStatus, result: ScreeningResult)

  const NO_RESULT := ScreeningResult("", 0, false, [], "", ZERO_TIME)

  ghost predicate AllParse(ids: seq<string>) {
    forall i :: 0 <= i < |ids| ==> ParseCriterionID(ids[i]).Some?
  }

  function Positions(ids: seq<string>): (ps: seq<int>)
    requires AllParse(ids)
    ensures |ps| == |ids|
    ensures forall i :: 0 <= i < |ids| ==> ps[i] == ParseCriterionID(ids[i]).value
  {
    seq(|ids|, i requires 0 <= i < |ids| => ParseCriterionID(ids[i]).value)
  }

  /** What the contract requires of an answer before the domain judges it; None is ErrMalformed. */
  ghost function ReadAnswer(m: Completed): Option<Reading> {
    if m.key.batchId == "" || m.key.resumeId == "" then None
    else
      var r := NO_RESULT.(candidateId := m.candidateId);
      match m.status
      case Unparsable => Some(Reading(NeedsReview, r.(reason := m.error.GetOr(""))))
      case FailedScreening => Some(Reading(Failed, r.(reason := m.error.GetOr(""))))
      case OtherStatus(_) => None
      case Scored =>
        if m.score == None || m.meetsMustHaves == None || !AllParse(m.unmetMustHaveIds) then None
        else Some(Reading(ScreenedOk, r.(score := m.score.value, meetsMustHaves := m.meetsMustHaves.value,
                                         unmetMustHaves := Positions(m.unmetMustHaveIds))))
  }

  /** ToDomain. */
  method ToDomain(m: Completed) returns (r: Option<Reading>)
    ensures r == ReadAnswer(m)
  {
    if m.key.batchId == "" || m.key.resumeId == "" {
      return None;
    }
    var res := NO_RESULT.(candidateId := m.candidateId);
    match m.status {
      case Unparsable | FailedScreening =>
        if m.error.Some? {
          res := res.(reason := m.error.value);
        }
        if m.status == Unparsable {
          return Some(Reading(NeedsReview, res));
        }
        return Some(Reading(Failed, res));
      case OtherStatus(_) =>
        return None;
      case Scored =>
    }
    if m.score == None || m.meetsMustHaves == None {
      return None;
    }
    res := res.(score := m.score.value, meetsMustHaves := m.meetsMustHaves.value);
    for i := 0 to |m.unmetMustHaveIds|
      invariant AllParse(m.unmetMustHaveIds[..i])
      invariant res == NO_RESULT.(candidateId := m.candidateId, score := m.score.value,
                                  meetsMustHaves := m.meetsMustHaves.value,
                                  unmetMustHaves := Positions(m.unmetMustHaveIds[..i]))
    {
      var pos := ParseCriterionID(m.unmetMustHaveIds[i]);
      if pos == None {
        return None;
      }
      assert m.unmetMustHaveIds[..i + 1] == m.unmetMustHaveIds[..i] + [m.unmetMustHaveIds[i]];
      assert Positions(m.unmetMustHaveIds[..i + 1]) == Positions(m.unmetMustHaveIds[..i]) + [pos.value];
      res := res.(unmetMustHaves := res.unmetMustHaves + [pos.value]);
    }
    assert m.unmetMustHaveIds[..|m.unmetMustHaveIds|] == m.unmetMustHaveIds;
    return Some(Reading(ScreenedOk, res));
  }

  // ---------- An honest answer is never refused ----------

  /** The scored row Resume Processing keeps of what the AI Service answered for these criteria. */
  ghost predicate HonestlyScored(r: Row, criteria: seq<Criterion>, assessments: seq<Scoring.Assessment>) {
    && r.status == RowScored
    && Scoring.ScoreAgainstCriteria(WireCriteria(criteria), assessments)
       == Ok(Scoring.Scored(r.score, r.meetsMustHaves, r.unmetMustHaveIds))
  }

  lemma {:induction false} WireCriteriaById(criteria: seq<Criterion>, n: nat)
    requires n <= |criteria|
    ensures forall id :: id in Scoring.ById(WireCriteria(criteria)[..n]) ==>
      exists p: nat ::
          p < n && id == CriterionID(p) && Scoring.ById(WireCriteria(criteria)[..n])[id] == WireCriteria(criteria)[p]
  {
    if n > 0 {
      WireCriteriaById(criteria, n - 1);
      var wire := WireCriteria(criteria)[..n];
      assert wire[..|wire| - 1] == WireCriteria(criteria)[..n - 1];
      assert wire[|wire| - 1] == AsReceived(Sent(n - 1, criteria[n - 1]));
    }
  }

  lemma UnmetIdsReadBack(criteria: seq<Criterion>, assessments: seq<Scoring.Assessment>)
    requires |criteria| <= MAX_INT
    requires Scoring.ScoreAgainstCriteria(WireCriteria(criteria), assessments).Ok?
    ensures
      var ids := Scoring.ScoreAgainstCriteria(WireCriteria(criteria), assessments).value.unmetMustHaveIds;
      && AllParse(ids)
      && (forall i :: 0 <= i < |ids| ==> IsMustHave(criteria, Positions(ids)[i]))
      && NoRepeats(Positions(ids))
      && (forall i :: 0 <= i < |ids| ==> Positions(ids)[i] >= 0 && ids[i] == CriterionID(Positions(ids)[i]))
  {
    var ids := Scoring.ScoreAgainstCriteria(WireCriteria(criteria), assessments).value.unmetMustHaveIds;
    Scoring.AcceptedAnswer(WireCriteria(criteria), assessments);
    forall i | 0 <= i < |ids|
      ensures exists p: nat :: p < |criteria| && ids[i] == CriterionID(p) && ParseCriterionID(ids[i]) == Some(p)
                               && IsMustHave(criteria, p)
    {
      assert ids[i] in ids;
      MustHaveReadsBack(criteria, ids[i]);
    }
    hide Scoring.ScoreAgainstCriteria, WireCriteria;
    forall i, j | 0 <= i < j < |ids| ensures Positions(ids)[i] != Positions(ids)[j] {
      assert ids[i] != ids[j];
    }
  }

  lemma MustHaveReadsBack(criteria: seq<Criterion>, id: string)
    requires |criteria| <= MAX_INT
    requires id in Scoring.ById(WireCriteria(criteria)) && Scoring.ById(WireCriteria(criteria))[id].mustHave
    ensures exists p: nat ::
        p < |criteria| && id == CriterionID(p) && ParseCriterionID(id) == Some(p) && IsMustHave(criteria, p)
  {
    var wire := WireCriteria(criteria);
    WireCriteriaById(criteria, |criteria|);
    assert wire[..|criteria|] == wire;
    var p: nat :| p < |criteria| && id == CriterionID(p) && Scoring.ById(wire)[id] == wire[p];
    ParseUndoesCriterionID(p);
  }

  /**
   * For every criteria list, whatever the model assessed: the row scored from it is answered, read
   * and judged without a refusal, exactly when the row has a candidate id. A row without one - left
   * by a failure recorded before any id was allocated - is the only scored row Hiring refuses.
   */
  lemma HonestAnswerAcceptedIffCandidate(r: Row, criteria: seq<Criterion>, assessments: seq<Scoring.Assessment>,
                                         correlationId: string)
    requires |criteria| <= MAX_INT
    requires HonestlyScored(r, criteria, assessments)
    requires r.key.batchId != "" && r.key.resumeId != ""
    ensures
      var reading := ReadAnswer(ToCompleted(r, correlationId));
      && reading.Some? && reading.value.status == ScreenedOk
      && (Recordable(criteria, ScreenedOk, reading.value.result) <==> r.candidateId.GetOr("") != "")
      && var said := reading.value.result;
      && said.score == r.score && said.meetsMustHaves == r.meetsMustHaves && said.reason == ""
      && |said.unmetMustHaves| == |r.unmetMustHaveIds|
      && forall i :: 0 <= i < |said.unmetMustHaves| ==>
           said.unmetMustHaves[i] >= 0 && r.unmetMustHaveIds[i] == CriterionID(said.unmetMustHaves[i])
  {
    UnmetIdsReadBack(criteria, assessments);
    Scoring.AcceptedAnswer(WireCriteria(criteria), assessments);
    assert Positions(r.unmetMustHaveIds) == [] <==> r.unmetMustHaveIds == [];
  }

  /** An unscored final row, and a failed one, are always recordable. */
  lemma UnscoredAnswerAccepted(r: Row, criteria: seq<Criterion>, correlationId: string)
    requires r.status == RowUnparsable || r.status == RowFailed
    requires r.key.batchId != "" && r.key.resumeId != ""
    ensures
      var reading := ReadAnswer(ToCompleted(r, correlationId));
      && reading.Some? && Recordable(criteria, reading.value.status, reading.value.result)
      && reading.value.status == (if r.status == RowUnparsable then NeedsReview else Failed)
      && reading.value.result.candidateId == r.candidateId.GetOr("")
      && reading.value.result.reason == (if r.error.Some? then r.error.value else "")
      && reading.value.result.score == 0 && !reading.value.result.meetsMustHaves
      && reading.value.result.unmetMustHaves == []
  {
  }

  /** A batch's requests always pass validation: no honest request is rejected as malformed. */
  lemma HonestRequestIsValid(bucket: string, jobOpeningId: string, criteria: seq<Criterion>, e: Entry,
                             correlationId: string)
    requires bucket != "" && e.batchId != "" && e.resumeId != "" && e.objectKey != ""
    requires ScorableCriteria(criteria)
    ensures ValidRequest(RequestOf(bucket, jobOpeningId, criteria, e, correlationId))
  {
    forall i | 0 <= i < |criteria| ensures criteria[i].name != "" {
      assert ScorableCriterion(criteria[i]);
    }
  }
}
