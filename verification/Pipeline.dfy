/**
 * Resume Processing: one screening request from delivery to acknowledgement. Everything outside the
 * service - files, the AI Service, the database's and the broker's good will - is a World, chosen freely.
 */
module Pipeline {
  import opened Prelude
  import opened CriterionIds
  import opened Handover
  import Scoring

  // ---------- Candidate ids ----------

  /** String(n).padStart(3, "0"). */
  function Pad3(s: string): string
    decreases 3 - |s|
  {
    if |s| < 3 then Pad3("0" + s) else s
  }

  function CandidateId(n: nat): string {
    "cand-" + Pad3(Itoa(n))
  }

  lemma {:induction false} NumberOfPadded(s: string)
    requires AllDigits(s)
    ensures AllDigits(Pad3(s)) && Number(Pad3(s)) == Number(s)
    decreases 3 - |s|
  {
    if |s| < 3 {
      NumberOfZeroThen(s);
      NumberOfPadded("0" + s);
    }
  }

  lemma {:induction false} NumberOfZeroThen(s: string)
    requires AllDigits(s)
    ensures AllDigits("0" + s) && Number("0" + s) == Number(s)
  {
    var z := "0" + s;
    assert forall i :: 1 <= i < |z| ==> z[i] == s[i - 1];
    if |s| > 0 {
      NumberOfZeroThen(s[..|s| - 1]);
      assert z[..|z| - 1] == "0" + s[..|s| - 1];
    } else {
      assert z[..0] == "";
    }
  }

  /** A candidate's id is the counter's value in decimal, with zeros in front up to three digits. */
  lemma CandidateIdSpells(n: nat)
    ensures
      var id := CandidateId(n);
      && |id| >= 8 && id[..5] == "cand-" && AllDigits(id[5..]) && Number(id[5..]) == n && (|id| > 8 ==> id[5] != '0')
  {
    assert CandidateId(n)[..5] == "cand-" && CandidateId(n)[5..] == Pad3(Itoa(n));
    NumberOfPadded(Itoa(n));
    NumberOfItoa(n);
    PaddedToThree(Itoa(n));
  }

  lemma {:induction false} PaddedToThree(s: string)
    ensures |Pad3(s)| >= 3 && (|Pad3(s)| > 3 ==> Pad3(s) == s)
    decreases 3 - |s|
  {
    if |s| < 3 {
      PaddedToThree("0" + s);
    }
  }

  /** The counter's values name different candidates. */
  lemma CandidateIdIsInjective(m: nat, n: nat)
    requires CandidateId(m) == CandidateId(n)
    ensures m == n
  {
    assert CandidateId(m)[5..] == Pad3(Itoa(m)) && CandidateId(n)[5..] == Pad3(Itoa(n));
    NumberOfPadded(Itoa(m));
    NumberOfPadded(Itoa(n));
    NumberOfItoa(m);
    NumberOfItoa(n);
  }

  const ALLOCATION_ATTEMPTS: nat := 20

  /** The counter document and the ids claimed so far. */
  class CandidateIds {
    var counter: nat
    var issued: set<string>

    /** No id above the counter has been claimed: what holds while the counter alone hands them out. */
    ghost predicate Ahead()
      reads this
    {
      forall id :: id in issued ==> exists n: nat :: n <= counter && id == CandidateId(n)
    }

    constructor ()
      ensures counter == 0 && issued == {} && Ahead()
    {
      counter, issued := 0, {};
    }

    /**
     * nextCandidateId: never an id handed out before. It gives up only when the next twenty were all
     * claimed by somebody else, and while the counter is ahead of every claim the first try succeeds.
     */
    method Next() returns (id: Option<string>)
      modifies this
      ensures id.Some? ==> id.value !in old(issued) && issued == old(issued) + {id.value}
      ensures id.Some? ==> counter > old(counter) && id.value == CandidateId(counter)
      ensures id == None <==>
          forall n: nat :: old(counter) < n <= old(counter) + 20 ==> CandidateId(n) in old(issued)
      ensures id == None ==> issued == old(issued)
      ensures old(Ahead()) ==> Ahead() && id == Some(CandidateId(old(counter) + 1)) && counter == old(counter) + 1
    {
      ghost var first := CandidateId(counter + 1);
      if Ahead() && first in issued {
        var n: nat :| n <= counter && first == CandidateId(n);
        CandidateIdIsInjective(n, counter + 1);
      }
      var attempt := 0;
      while attempt < ALLOCATION_ATTEMPTS
        invariant 0 <= attempt <= ALLOCATION_ATTEMPTS
        invariant counter == old(counter) + attempt && issued == old(issued)
        invariant forall n: nat :: old(counter) < n <= old(counter) + attempt ==> CandidateId(n) in old(issued)
        invariant old(Ahead()) ==> attempt == 0 && first !in issued
      {
        counter := counter + 1;
        var next := CandidateId(counter);
        if next !in issued {
          issued := issued + {next};
          return Some(next);
        }
        attempt := attempt + 1;
      }
      return None;
    }
  }

  // ---------- processScreeningRequest ----------

  /** An error thrown while working: permanent when retrying cannot help. */
  datatype Trouble = Trouble(permanent: bool, error: string)

  datatype File = Text | NoText(reason: string) | Missing(error: string) | StorageDown(error: string)

  /** A failed call: the gRPC client attaches a status code, anything else may not. */
  datatype CallError = Coded(transient: bool, details: string) | Uncoded(message: string)

  datatype World = World(
    idError: Option<string>,       // allocating a candidate id fails
    idsSkipped: nat,               // counter values burnt on the way
    claimError: Option<string>,    // writing the row at the start fails
    file: File,
    profileError: Option<CallError>,
    scoringError: Option<CallError>,
    assessments: seq<Scoring.Assessment>,
    saveError: Option<CallError>)  // writing the scored row fails

  /** Where one attempt leaves the row and the counter, and what it returns or throws. */
  datatype Attempt = Attempt(row: Option<Row>, issued: nat, result: Result<Completed, Trouble>)

  /** The AI Service's refusals: a bad request is permanent, an unusable answer worth a retry. */
  function RefusalOf(e: Scoring.ScoringError): CallError {
    if e == Scoring.NoCriteria then Coded(false, "no criteria supplied")
    else Coded(true, "the answer could not be used")
  }

  /** How the pipeline classifies an error thrown while extracting or scoring. */
  function Classified(e: CallError): Trouble {
    match e
    case Coded(transient, details) => Trouble(!transient, details)
    case Uncoded(message) => Trouble(false, message)
  }

  function Claimed(m: Requested, row: Option<Row>, candidateId: string): Row {
    if row == None then
      Row(m.key, m.jobOpeningId, Some(candidateId), Processing, 0, false, [], None, 1)
    else
      row.value.(status := Processing, attempts := row.value.attempts + 1, error := None)
  }

  function ScoredRow(r: Row, s: Scoring.Scored): Row {
    r.(status := RowScored, score := s.score, meetsMustHaves := s.meetsMustHaves,
       unmetMustHaveIds := s.unmetMustHaveIds, error := None)
  }

  predicate NeedsId(row: Option<Row>) {
    row == None || row.value.candidateId == None
  }

  /** The steps after the row is claimed: read the file, extract, score. */
  function Screened(m: Requested, claimed: Row, issued: nat, w: World): Attempt {
    match w.file
    case NoText(reason) =>
      var r := claimed.(status := RowUnparsable, error := Some(reason));
      Attempt(Some(r), issued, Ok(ToCompleted(r, m.correlationId)))
    case Missing(error) => Attempt(Some(claimed), issued, Err(Trouble(true, error)))
    case StorageDown(error) => Attempt(Some(claimed), issued, Err(Trouble(false, error)))
    case Text =>
      if w.profileError.Some? then Attempt(Some(claimed), issued, Err(Classified(w.profileError.value)))
      else if w.scoringError.Some? then Attempt(Some(claimed), issued, Err(Classified(w.scoringError.value)))
      else
        match Scoring.ScoreAgainstCriteria(ReceivedCriteria(m.criteria), w.assessments)
        case Err(e) => Attempt(Some(claimed), issued, Err(Classified(RefusalOf(e))))
        case Ok(s) =>
          if w.saveError.Some? then Attempt(Some(claimed), issued, Err(Classified(w.saveError.value)))
          else
            var r := ScoredRow(claimed, s);
            Attempt(Some(r), issued, Ok(ToCompleted(r, m.correlationId)))
  }

  /** processScreeningRequest on the row stored under the request's key. */
  function Process(m: Requested, row: Option<Row>, issued: nat, w: World): Attempt {
    if !ValidRequest(m) then Attempt(row, issued, Err(Trouble(true, "invalid screening.requested message")))
    else if row.Some? && Final(row.value) then Attempt(row, issued, Ok(ToCompleted(row.value, m.correlationId)))
    else if NeedsId(row) && w.idError.Some? then
      Attempt(row, issued + w.idsSkipped, Err(Trouble(false, w.idError.value)))
    else
      var issued' := if NeedsId(row) then issued + w.idsSkipped + 1 else issued;
      if w.claimError.Some? then Attempt(row, issued', Err(Trouble(false, w.claimError.value)))
      else Screened(m, Claimed(m, row, CandidateId(issued')), issued', w)
  }

  /** markFailed: the row recording a final failure, inserted when there is none. */
  function MarkFailed(m: Requested, row: Option<Row>, error: string): Option<Row> {
    if m.key.batchId == "" || m.key.resumeId == "" then None
    else if row == None then Some(Row(m.key, m.jobOpeningId, None, RowFailed, 0, false, [], Some(error), 0))
    else Some(row.value.(jobOpeningId := m.jobOpeningId, status := RowFailed, error := Some(error)))
  }

  // ---------- handle ----------

  /** A screening.requested delivery: the body, None when it is not JSON, and x-retry-count. */
  datatype Request = Request(body: Option<Requested>, attempt: nat)

  datatype Publication =
    | Answered(answer: Completed)                      // to screening.completed
    | Retried(retry: Request, delay: int)              // to the retry queue, with its expiration
    | DeadLettered(dead: Request, error: string)       // to the dead-letter queue

  datatype Limits = Limits(maxRetries: nat, retryDelayMs: nat)

  /** Math.round. */
  function Round(x: real): int {
    (x + 0.5).Floor
  }

  function Pow2(n: nat): (p: nat)
    ensures p > 0
  {
    if n == 0 then 1 else 2 * Pow2(n - 1)
  }

  /** backoff, with the jitter it drew. */
  function Backoff(baseMs: nat, attempt: nat, jitter: real): int {
    Jitter(Step(baseMs, attempt), jitter)
  }

  /** The delay before jitter: doubling from the base. */
  function Step(baseMs: nat, attempt: nat): nat {
    baseMs * Pow2(attempt)
  }

  function Jitter(step: nat, jitter: real): int {
    Round(step as real * jitter)
  }

  datatype Handled = Handled(row: Option<Row>, issued: nat, outbox: seq<Publication>)

  /** What becomes of a delivery whose attempt ended as a: the row, and what is published in which order. */
  function Outcome(q: Limits, r: Request, a: Attempt, jitter: real, recordError: bool): Handled {
    match a.result
    case Ok(answer) => Handled(a.row, a.issued, [Answered(answer)])
    case Err(t) =>
      if !t.permanent && r.attempt < q.maxRetries then
        Handled(a.row, a.issued, [Retried(r.(attempt := r.attempt + 1), Backoff(q.retryDelayMs, r.attempt, jitter))])
      else
        var failed := if r.body == None || recordError then None else MarkFailed(r.body.value, a.row, t.error);
        if failed == None then Handled(a.row, a.issued, [DeadLettered(r, t.error)])
        else Handled(failed, a.issued,
            [DeadLettered(r, t.error), Answered(ToCompleted(failed.value, r.body.value.correlationId))])
  }

  const NOT_JSON := Trouble(true, "Message body is not valid JSON")

  function AfterDelivery(q: Limits, r: Request, row: Option<Row>, issued: nat, w: World, jitter: real,
                         recordError: bool): Handled {
    var a := if r.body == None then Attempt(row, issued, Err(NOT_JSON)) else Process(r.body.value, row, issued, w);
    Outcome(q, r, a, jitter, recordError)
  }

  /** The stored rows with one of them replaced, or left alone when there is none to store. */
  function WithRow(rows: map<Key, Row>, k: Key, row: Option<Row>): map<Key, Row> {
    if row.Some? then rows[k := row.value] else rows
  }

  datatype Settlement = Unsettled | Acked | Requeued

  /** The service's stored state and the confirm channel it works on. */
  class ResumeProcessing {
    const limits: Limits
    var rows: map<Key, Row>
    var issued: nat
    var outbox: seq<Publication> // everything sent on the channel, in order
    var settlement: Settlement   // of the delivery being handled

    function RowOf(k: Key): Option<Row>
      reads this
    {
      if k in rows then Some(rows[k]) else None
    }

    constructor (limits: Limits, rows: map<Key, Row>, issued: nat)
      ensures this.limits == limits && this.rows == rows && this.issued == issued
      ensures outbox == [] && settlement == Unsettled
    {
      this.limits, this.rows, this.issued := limits, rows, issued;
      outbox, settlement := [], Unsettled;
    }

    /** save: one write of the stored row. */
    method Save(k: Key, r: Row)
      modifies this`rows
      ensures rows == old(rows)[k := r]
    {
      rows := rows[k := r];
    }

    /** Steps 3 to 5 of processScreeningRequest: read the file, extract, score, one write at a time. */
    method Screen(m: Requested, w: World) returns (res: Result<Completed, Trouble>)
      requires m.key in rows
      modifies this`rows
      ensures
        var a := Screened(m, old(rows)[m.key], issued, w);
        a.result == res && a.row.Some? && rows == old(rows)[m.key := a.row.value]
    {
      var r := rows[m.key];
      match w.file {
        case NoText(reason) =>
          r := r.(status := RowUnparsable, error := Some(reason));
          Save(m.key, r);
          return Ok(ToCompleted(r, m.correlationId));
        case Missing(error) => return Err(Trouble(true, error));
        case StorageDown(error) => return Err(Trouble(false, error));
        case Text =>
      }
      if w.profileError.Some? {
        return Err(Classified(w.profileError.value));
      }
      if w.scoringError.Some? {
        return Err(Classified(w.scoringError.value));
      }
      var scored := Scoring.ScoreAgainstCriteria(ReceivedCriteria(m.criteria), w.assessments);
      if scored.Err? {
        return Err(Classified(RefusalOf(scored.error)));
      }
      if w.saveError.Some? {
        return Err(Classified(w.saveError.value));
      }
      r := ScoredRow(r, scored.value);
      Save(m.key, r);
      return Ok(ToCompleted(r, m.correlationId));
    }

    /** processScreeningRequest: replay finished work, otherwise claim the row and screen. */
    method ProcessScreeningRequest(m: Requested, w: World) returns (res: Result<Completed, Trouble>)
      modifies this`rows, this`issued
      ensures
        var a := Process(m, old(RowOf(m.key)), old(issued), w);
        a.result == res && issued == a.issued && rows == WithRow(old(rows), m.key, a.row)
    {
      hide ValidRequest, Scoring.ScoreAgainstCriteria;
      if !ValidRequest(m) {
        return Err(Trouble(true, "invalid screening.requested message"));
      }
      var result := RowOf(m.key);
      if result.Some? && Final(result.value) {
        return Ok(ToCompleted(result.value, m.correlationId));
      }
      var candidateId := "";
      if result.Some? && result.value.candidateId.Some? {
        candidateId := result.value.candidateId.value;
      } else {
        issued := issued + w.idsSkipped;
        if w.idError.Some? {
          return Err(Trouble(false, w.idError.value));
        }
        issued := issued + 1;
        candidateId := CandidateId(issued);
      }
      if w.claimError.Some? {
        return Err(Trouble(false, w.claimError.value));
      }
      if result == None {
        Save(m.key, Row(m.key, m.jobOpeningId, Some(candidateId), Processing, 0, false, [], None, 1));
      } else {
        var r := result.value;
        Save(m.key, r.(status := Processing, attempts := r.attempts + 1, error := None));
      }
      res := Screen(m, w);
    }

    /** settle: acknowledge once everything sent is confirmed, otherwise hand the delivery back. */
    method Settle(confirmed: bool) returns (ok: bool)
      modifies this`settlement
      ensures ok == confirmed && settlement == if confirmed then Acked else Requeued
    {
      settlement := if confirmed then Acked else Requeued;
      return confirmed;
    }

    /** handle: the delivery is acknowledged only behind everything it produced, and only if all was confirmed. */
    method Handle(r: Request, w: World, jitter: real, recordError: bool, confirmed: bool)
      modifies this
      ensures
        var key := if r.body.Some? then r.body.value.key else Key("", "");
        var row := if r.body.Some? then old(RowOf(key)) else None;
        var h := AfterDelivery(limits, r, row, old(issued), w, jitter, recordError);
        && rows == WithRow(old(rows), key, h.row)
        && issued == h.issued
        && outbox == old(outbox) + h.outbox
        && settlement == if confirmed then Acked else Requeued
    {
      var trouble := NOT_JSON;
      if r.body.Some? {
        var res := ProcessScreeningRequest(r.body.value, w);
        if res.Ok? {
          outbox := outbox + [Answered(res.value)];
          var _ := Settle(confirmed);
          return;
        }
        trouble := res.error;
      }
      if !trouble.permanent && r.attempt < limits.maxRetries {
        var delay := Backoff(limits.retryDelayMs, r.attempt, jitter);
        outbox := outbox + [Retried(r.(attempt := r.attempt + 1), delay)];
        var _ := Settle(confirmed);
        return;
      }
      outbox := outbox + [DeadLettered(r, trouble.error)];
      if r.body.Some? && !recordError {
        var m := r.body.value;
        var failed := MarkFailed(m, RowOf(m.key), trouble.error);
        if failed.Some? {
          rows := rows[m.key := failed.value];
          outbox := outbox + [Answered(ToCompleted(failed.value, m.correlationId))];
        }
      }
      var _ := Settle(confirmed);
    }
  }

  // ---------- What handling a delivery keeps ----------

  /** A finished row is answered again exactly as it stands, and nothing else happens. */
  lemma FinishedWorkIsReplayed(q: Limits, r: Request, row: Row, issued: nat, w: World, jitter: real, recordError: bool)
    requires r.body.Some? && ValidRequest(r.body.value) && Final(row)
    ensures AfterDelivery(q, r, Some(row), issued, w, jitter, recordError)
            == Handled(Some(row), issued, [Answered(ToCompleted(row, r.body.value.correlationId))])
  {
  }

  /** A row keeps its key and its candidate id, whatever happens; only a missing row gets an id, and a new one. */
  lemma CandidateStays(q: Limits, r: Request, row: Option<Row>, issued: nat, w: World, jitter: real, recordError: bool)
    requires r.body == None ==> row == None
    requires row.Some? ==> row.value.key == r.body.value.key
    ensures
      var h := AfterDelivery(q, r, row, issued, w, jitter, recordError);
      && h.issued >= issued
      && (row.Some? ==> h.row.Some? && h.row.value.candidateId == row.value.candidateId)
      && (h.row.Some? ==> r.body.Some? && h.row.value.key == r.body.value.key)
      && (row == None && h.row.Some? && h.row.value.candidateId.Some? ==>
            h.issued > issued && h.row.value.candidateId.value == CandidateId(h.issued))
  {
    if r.body.Some? {
      ProcessKeepsCandidate(r.body.value, row, issued, w);
    }
  }

  lemma ProcessKeepsCandidate(m: Requested, row: Option<Row>, issued: nat, w: World)
    requires row.Some? ==> row.value.key == m.key
    ensures
      var a := Process(m, row, issued, w);
      && a.issued >= issued
      && (row.Some? ==> a.row.Some? && a.row.value.candidateId == row.value.candidateId)
      && (a.row.Some? ==> a.row.value.key == m.key)
      && (row == None && a.row.Some? ==>
            a.row.value.candidateId.Some? && a.issued > issued
                && a.row.value.candidateId.value == CandidateId(a.issued))
  {
  }

  /** A row without a candidate id is first stored for a valid request only when no row could be claimed. */
  lemma CandidatelessOnlyWhenUnclaimed(q: Limits, r: Request, issued: nat, w: World, jitter: real, recordError: bool)
    requires r.body.Some? && ValidRequest(r.body.value)
    ensures
      var h := AfterDelivery(q, r, None, issued, w, jitter, recordError);
      h.row.Some? && h.row.value.candidateId == None ==>
        !recordError && h.row.value.status == RowFailed && (w.idError.Some? || w.claimError.Some?)
  {
    ProcessKeepsCandidate(r.body.value, None, issued, w);
  }

  lemma ProcessAnswersFromTheRow(m: Requested, row: Option<Row>, issued: nat, w: World)
    ensures
      var a := Process(m, row, issued, w);
      a.result.Ok? ==>
        a.row.Some? && a.result.value == ToCompleted(a.row.value, m.correlationId) && a.row.value.status != Processing
  {
    hide ValidRequest, Scoring.ScoreAgainstCriteria, ToCompleted;
  }

  /** The answer a delivery publishes, if any, is made from the row it leaves behind. */
  lemma AnswersComeFromTheRow(q: Limits, r: Request, row: Option<Row>, issued: nat, w: World, jitter: real,
                              recordError: bool)
    ensures
      var h := AfterDelivery(q, r, row, issued, w, jitter, recordError);
      forall p :: p in h.outbox && p.Answered? ==>
        h.row.Some? && r.body.Some? && p.answer == ToCompleted(h.row.value, r.body.value.correlationId)
        && h.row.value.status != Processing
  {
    hide Process, ToCompleted;
    if r.body.Some? {
      ProcessAnswersFromTheRow(r.body.value, row, issued, w);
    }
  }

  /** Anything but the answer that screening failed, which comes behind a dead letter and is not the last word. */
  predicate Carries(p: Publication) {
    p.Answered? ==> p.answer.status != FailedScreening
  }

  /** Every delivery leaves something behind it: a final answer, a retry copy or a dead letter, of the same request. */
  lemma NothingHandledVanishes(q: Limits, r: Request, row: Option<Row>, issued: nat, w: World, jitter: real,
                               recordError: bool)
    ensures
      var o := AfterDelivery(q, r, row, issued, w, jitter, recordError).outbox;
      && 1 <= |o| <= 2
      && (o[0].Answered? || (o[0].Retried? && o[0].retry.body == r.body) || (o[0].DeadLettered? && o[0].dead == r))
      && (|o| == 2 ==> o[0].DeadLettered? && o[1].Answered? && o[1].answer.status == FailedScreening)
      && (o[0].Retried? ==> o[0].retry.attempt == r.attempt + 1 <= q.maxRetries)
      && Carries(o[0])
  {
    hide ValidRequest, Scoring.ScoreAgainstCriteria;
  }

  // ---------- What becomes of a delivery ----------

  /** One copy of the same request for another try, counted. */
  ghost predicate TriedAgain(r: Request, h: Handled) {
    |h.outbox| == 1 && h.outbox[0].Retried? && h.outbox[0].retry.body == r.body
    && h.outbox[0].retry.attempt == r.attempt + 1
  }

  /** A dead letter, and behind it the answer that screening failed, unless the failure could not be recorded. */
  ghost predicate GivenUp(r: Request, error: string, recordError: bool, h: Handled)
    requires r.body.Some?
  {
    && |h.outbox| == (if recordError then 1 else 2)
    && h.outbox[0].DeadLettered? && h.outbox[0].dead == r && h.outbox[0].error == error
    && (!recordError ==>
          && h.row.Some? && h.row.value.status.RowFailed? && h.row.value.error == Some(error)
          && h.outbox[1].Answered? && h.outbox[1].answer.status.FailedScreening?
          && h.outbox[1].answer.error == Some(error) && h.outbox[1].answer.key == r.body.value.key
          && h.outbox[1].answer.correlationId == r.body.value.correlationId)
  }

  /** What passes is tried again while tries are left; what does not, or has no try left, is given up. */
  ghost predicate Fate(q: Limits, r: Request, passing: bool, error: string, recordError: bool, h: Handled)
    requires r.body.Some?
  {
    if passing && r.attempt < q.maxRetries then TriedAgain(r, h) else GivenUp(r, error, recordError, h)
  }

  /** A failed call is worth another try unless its code says otherwise. */
  predicate Passing(e: CallError) {
    e.Uncoded? || e.transient
  }

  function Said(e: CallError): string {
    if e.Coded? then e.details else e.message
  }

  /** A delivery that gets as far as working on its file: a valid request, not finished, whose row is claimed. */
  ghost predicate GetsToWork(r: Request, row: Option<Row>, w: World) {
    && r.body.Some? && ValidRequest(r.body.value)
    && (row.Some? ==>
        !row.value.status.RowScored? && !row.value.status.RowUnparsable? && row.value.key == r.body.value.key)
    && w.claimError == None && (row == None || row.value.candidateId == None ==> w.idError == None)
  }

  lemma ErrorHasItsFate(q: Limits, r: Request, a: Attempt, jitter: real, recordError: bool)
    requires r.body.Some? && r.body.value.key.batchId != "" && r.body.value.key.resumeId != "" && a.result.Err?
    requires a.row.Some? ==> a.row.value.key == r.body.value.key
    ensures Fate(q, r, !a.result.error.permanent, a.result.error.error, recordError,
        Outcome(q, r, a, jitter, recordError))
  {
  }

  /**
   * With the file's text in hand, the first thing to go wrong decides: profiling, scoring, an answer that cannot
   * be used, storing the score. A call that was refused for good fails the resume at once; anything else is
   * tried again while tries are left. With nothing wrong the resume is scored as the AI Service answered.
   */
  lemma WorkOnText(q: Limits, r: Request, row: Option<Row>, issued: nat, w: World, jitter: real, recordError: bool)
    requires GetsToWork(r, row, w) && w.file.Text?
    ensures
      var h := AfterDelivery(q, r, row, issued, w, jitter, recordError);
      var scored := Scoring.ScoreAgainstCriteria(ReceivedCriteria(r.body.value.criteria), w.assessments);
      if w.profileError.Some? then Fate(q, r, Passing(w.profileError.value), Said(w.profileError.value), recordError, h)
      else if w.scoringError.Some? then
        Fate(q, r, Passing(w.scoringError.value), Said(w.scoringError.value), recordError, h)
      else if scored.Err? then Fate(q, r, true, "the answer could not be used", recordError, h)
      else if w.saveError.Some? then Fate(q, r, Passing(w.saveError.value), Said(w.saveError.value), recordError, h)
      else
        && h.row.Some? && h.row.value.status.RowScored? && h.row.value.error == None
        && h.row.value.score == scored.value.score && h.row.value.meetsMustHaves == scored.value.meetsMustHaves
        && h.row.value.unmetMustHaveIds == scored.value.unmetMustHaveIds
        && |h.outbox| == 1 && h.outbox[0] == Answered(ToCompleted(h.row.value, r.body.value.correlationId))
  {
    var a := Process(r.body.value, row, issued, w);
    ProcessedText(r.body.value, row, issued, w);
    hide Scoring.ScoreAgainstCriteria, Outcome, Fate, Process, ValidRequest, Passing, Said;
    if a.result.Err? {
      ErrorHasItsFate(q, r, a, jitter, recordError);
    } else {
      AnswerGoesOut(q, r, a, jitter, recordError);
    }
  }

  /** The attempt's own end, before it is decided what is published. */
  lemma ProcessedText(m: Requested, row: Option<Row>, issued: nat, w: World)
    requires ValidRequest(m) && w.file.Text? && w.claimError == None
    requires row.Some? ==> !Final(row.value) && row.value.key == m.key
    requires row == None || row.value.candidateId == None ==> w.idError == None
    ensures
      var a := Process(m, row, issued, w);
      var scored := Scoring.ScoreAgainstCriteria(ReceivedCriteria(m.criteria), w.assessments);
      && a.row.Some? && a.row.value.key == m.key
      && if w.profileError.Some?
          then a.result == Err(Trouble(!Passing(w.profileError.value), Said(w.profileError.value)))
         else if w.scoringError.Some?
             then a.result == Err(Trouble(!Passing(w.scoringError.value), Said(w.scoringError.value)))
         else if scored.Err? then a.result == Err(Trouble(false, "the answer could not be used"))
         else if w.saveError.Some? then a.result == Err(Trouble(!Passing(w.saveError.value), Said(w.saveError.value)))
         else
           && a.row.value.status.RowScored? && a.row.value.error == None
           && a.row.value.score == scored.value.score && a.row.value.meetsMustHaves == scored.value.meetsMustHaves
           && a.row.value.unmetMustHaveIds == scored.value.unmetMustHaveIds
           && a.result == Ok(ToCompleted(a.row.value, m.correlationId))
  {
    Scoring.AcceptedExactlyWhenOneAssessmentEach(ReceivedCriteria(m.criteria), w.assessments);
    hide Scoring.ScoreAgainstCriteria, ToCompleted;
  }

  lemma AnswerGoesOut(q: Limits, r: Request, a: Attempt, jitter: real, recordError: bool)
    requires a.result.Ok?
    ensures Outcome(q, r, a, jitter, recordError) == Handled(a.row, a.issued, [Answered(a.result.value)])
  {
  }

  /** Exactly when a resume whose text is in hand is tried again; a call refused for good never is. */
  lemma TriedAgainIff(q: Limits, r: Request, row: Option<Row>, issued: nat, w: World, jitter: real, recordError: bool)
    requires GetsToWork(r, row, w) && w.file.Text?
    ensures
      var h := AfterDelivery(q, r, row, issued, w, jitter, recordError);
      var scored := Scoring.ScoreAgainstCriteria(ReceivedCriteria(r.body.value.criteria), w.assessments);
      var first := if w.profileError.Some? then w.profileError else if w.scoringError.Some? then w.scoringError
        else if scored.Err? then Some(Uncoded("")) else w.saveError;
      && (TriedAgain(r, h) <==>
            r.attempt < q.maxRetries && first.Some? && (first.value.Uncoded? || first.value.transient))
      && (first.Some? && first.value.Coded? && !first.value.transient ==>
            h.outbox != [] && h.outbox[0] == DeadLettered(r, first.value.details))
  {
    WorkOnText(q, r, row, issued, w, jitter, recordError);
  }

  /** A missing file fails the resume at once, storage that is down is tried again, a file without text is reviewed. */
  lemma WorkOnFile(q: Limits, r: Request, row: Option<Row>, issued: nat, w: World, jitter: real, recordError: bool)
    requires GetsToWork(r, row, w)
    ensures
      var h := AfterDelivery(q, r, row, issued, w, jitter, recordError);
      match w.file
      case Missing(error) => Fate(q, r, false, error, recordError, h)
      case StorageDown(error) => Fate(q, r, true, error, recordError, h)
      case NoText(reason) =>
        && h.row.Some? && h.row.value.status.RowUnparsable? && h.row.value.error == Some(reason)
        && |h.outbox| == 1 && h.outbox[0] == Answered(ToCompleted(h.row.value, r.body.value.correlationId))
      case Text => true
  {
    hide Scoring.ScoreAgainstCriteria;
  }

  /** Without an id, or without the row's claim, nothing is done and the resume is tried again. */
  lemma NoClaim(q: Limits, r: Request, row: Option<Row>, issued: nat, w: World, jitter: real, recordError: bool)
    requires r.body.Some? && ValidRequest(r.body.value)
    requires row.Some? ==> !row.value.status.RowScored? && !row.value.status.RowUnparsable?
    requires row.Some? ==> row.value.key == r.body.value.key
    requires w.claimError.Some? || ((row == None || row.value.candidateId == None) && w.idError.Some?)
    ensures
      var h := AfterDelivery(q, r, row, issued, w, jitter, recordError);
      var error := if (row == None || row.value.candidateId == None) && w.idError.Some? then w.idError.value
        else w.claimError.value;
      && Fate(q, r, true, error, recordError, h)
      && (TriedAgain(r, h) ==> h.row == row)
  {
    hide Scoring.ScoreAgainstCriteria;
  }

  /**
   * The claim: a new row starts its first attempt under a fresh candidate id; a known one counts one more
   * attempt and keeps what it has. It is what a delivery that is tried again leaves.
   */
  lemma TheClaimStays(q: Limits, r: Request, row: Option<Row>, issued: nat, w: World, jitter: real, recordError: bool)
    requires GetsToWork(r, row, w)
    ensures
      var h, m := AfterDelivery(q, r, row, issued, w, jitter, recordError), r.body.value;
      TriedAgain(r, h) ==>
        && h.row.Some? && h.row.value.status.Processing? && h.row.value.error == None && h.row.value.key == m.key
        && (row == None ==>
              && h.row.value.jobOpeningId == m.jobOpeningId && h.row.value.attempts == 1
              && h.row.value.candidateId == Some(CandidateId(issued + w.idsSkipped + 1)))
        && (row.Some? ==>
              && h.row.value.attempts == row.value.attempts + 1 && h.row.value.candidateId == row.value.candidateId
              && h.row.value.score == row.value.score && h.row.value.jobOpeningId == row.value.jobOpeningId)
  {
    hide Scoring.ScoreAgainstCriteria;
  }

  /**
   * Whatever becomes of a delivery, a row it changes or creates is the request's own: its attempts count the
   * deliveries that got to work, its candidate is the one it had or the one just allocated, and only recording
   * a failure moves a known row to the opening the request names.
   */
  lemma TheRowAfterwards(q: Limits, r: Request, row: Option<Row>, issued: nat, w: World, jitter: real,
                         recordError: bool)
    requires r.body.Some? && (row.Some? ==> row.value.key == r.body.value.key)
    ensures
      var h, m := AfterDelivery(q, r, row, issued, w, jitter, recordError), r.body.value;
      h.row.Some? && h.row != row ==>
        && h.row.value.key == m.key
        && h.row.value.attempts
            == (if row.Some? then row.value.attempts else 0) + (if GetsToWork(r, row, w) then 1 else 0)
        && h.row.value.jobOpeningId
            == (if row.Some? && h.row.value.status != RowFailed then row.value.jobOpeningId else m.jobOpeningId)
        && h.row.value.candidateId
            == (if row.Some? then row.value.candidateId
                else if GetsToWork(r, row, w) then Some(CandidateId(issued + w.idsSkipped + 1)) else None)
  {
    var a := Process(r.body.value, row, issued, w);
    TheRowWhileWorking(r, row, issued, w);
    hide Process, GetsToWork, ToCompleted, CandidateId, Backoff;
  }

  lemma TheRowWhileWorking(r: Request, row: Option<Row>, issued: nat, w: World)
    requires r.body.Some? && (row.Some? ==> row.value.key == r.body.value.key)
    ensures
      var a, m, works := Process(r.body.value, row, issued, w), r.body.value, GetsToWork(r, row, w);
      && (works ==> a.row.Some?) && (!works ==> a.row == row)
      && (a.row.Some? && works ==>
            && a.row.value.key == m.key && a.row.value.status != RowFailed
            && a.row.value.attempts == (if row.Some? then row.value.attempts else 0) + 1
            && a.row.value.jobOpeningId == (if row.Some? then row.value.jobOpeningId else m.jobOpeningId)
            && a.row.value.candidateId
                == if row.Some? then row.value.candidateId else Some(CandidateId(issued + w.idsSkipped + 1)))
  {
    hide Scoring.ScoreAgainstCriteria, ToCompleted, CandidateId, ValidRequest;
  }

  /** An id is drawn exactly for a valid request of an unfinished resume that has no candidate yet. */
  lemma IdsAreDrawn(q: Limits, r: Request, row: Option<Row>, issued: nat, w: World, jitter: real, recordError: bool)
    ensures
      var h := AfterDelivery(q, r, row, issued, w, jitter, recordError);
      var draws := r.body.Some? && ValidRequest(r.body.value) && (row.Some? ==>
          row.value.candidateId == None && !row.value.status.RowScored? && !row.value.status.RowUnparsable?);
      h.issued == issued + (if draws then w.idsSkipped + (if w.idError.Some? then 0 else 1) else 0)
  {
    hide Scoring.ScoreAgainstCriteria, ToCompleted, CandidateId, Backoff, ValidRequest;
  }

  /** What is missing from a request that cannot be worked on. */
  ghost predicate Lacking(m: Requested) {
    || m.key.batchId == "" || m.key.resumeId == "" || m.bucket == "" || m.objectKey == "" || m.criteria == []
    || exists c :: c in m.criteria && (c.id == "" || c.text == "")
  }

  lemma LackingIff(m: Requested)
    ensures Lacking(m) <==> !ValidRequest(m)
  {
    if c :| c in m.criteria && (c.id == "" || c.text == "") {
      var i :| 0 <= i < |m.criteria| && m.criteria[i] == c;
    }
    forall i | 0 <= i < |m.criteria| ensures m.criteria[i] in m.criteria {
    }
  }

  /** A request that lacks something is given up at any attempt, and answered only when it says whose it is. */
  lemma MalformedIsGivenUp(q: Limits, r: Request, row: Option<Row>, issued: nat, w: World, jitter: real,
                           recordError: bool)
    requires r.body == None || Lacking(r.body.value)
    ensures
      var h := AfterDelivery(q, r, row, issued, w, jitter, recordError);
      var answered := r.body.Some? && r.body.value.key.batchId != "" && r.body.value.key.resumeId != "" && !recordError;
      && h.issued == issued && h.outbox != [] && h.outbox[0].DeadLettered? && h.outbox[0].dead == r
      && |h.outbox| == (if answered then 2 else 1)
      && (!answered ==> h.row == row)
  {
    if r.body.Some? {
      LackingIff(r.body.value);
    }
    hide Lacking, ValidRequest, Screened;
  }

  /** A retry's delay: the base, doubled for every earlier retry, within a fifth of that either way. */
  lemma RetryIsDelayed(q: Limits, r: Request, row: Option<Row>, issued: nat, w: World, jitter: real, recordError: bool)
    requires 0.8 <= jitter < 1.2
    ensures
      var h := AfterDelivery(q, r, row, issued, w, jitter, recordError);
      TriedAgain(r, h) ==>
        var doubled := Doubled(q.retryDelayMs, r.attempt);
        0.8 * doubled as real - 0.5 <= h.outbox[0].delay as real <= 1.2 * doubled as real + 0.5
  {
    DoubledIs(q.retryDelayMs, r.attempt);
    JitteredDelay(Step(q.retryDelayMs, r.attempt), jitter);
    hide Process, Step, Jitter;
  }

  function Doubled(baseMs: nat, times: nat): nat {
    if times == 0 then baseMs else 2 * Doubled(baseMs, times - 1)
  }

  lemma {:induction false} DoubledIs(baseMs: nat, times: nat)
    ensures Step(baseMs, times) == Doubled(baseMs, times)
  {
    if times > 0 {
      DoubledIs(baseMs, times - 1);
      assert baseMs * (2 * Pow2(times - 1)) == 2 * (baseMs * Pow2(times - 1));
    }
  }

  // ---------- The delays ----------

  /** The delays one request's first n retries are given, with the jitter each drew. */
  function DelaySum(baseMs: nat, jitters: seq<real>): int {
    if |jitters| == 0 then 0
    else DelaySum(baseMs, jitters[..|jitters| - 1]) + Backoff(baseMs, |jitters| - 1, jitters[|jitters| - 1])
  }

  lemma Jittered(step: real, jitter: real)
    requires step >= 0.0 && 0.8 <= jitter < 1.2
    ensures 0.8 * step <= step * jitter <= 1.2 * step
  {
  }

  lemma RoundBetween(x: real, lo: real, hi: real)
    requires lo <= x <= hi
    ensures lo - 0.5 <= Round(x) as real <= hi + 0.5
  {
  }

  lemma JitteredDelay(step: nat, jitter: real)
    requires 0.8 <= jitter < 1.2
    ensures 0.8 * step as real - 0.5 <= Jitter(step, jitter) as real <= 1.2 * step as real + 0.5
  {
    Jittered(step as real, jitter);
    RoundBetween(step as real * jitter, 0.8 * step as real, 1.2 * step as real);
  }

  /** The undisturbed delays of the first n retries add up to base * (2^n - 1). */
  lemma {:induction false} StepsAddUp(baseMs: nat, n: nat)
    ensures Steps(baseMs, n) == baseMs * (Pow2(n) - 1)
  {
    if n > 0 {
      StepsAddUp(baseMs, n - 1);
      Distribute(baseMs, Pow2(n - 1) - 1, Pow2(n - 1));
    }
  }

  function Steps(baseMs: nat, n: nat): nat {
    if n == 0 then 0 else Steps(baseMs, n - 1) + Step(baseMs, n - 1)
  }

  lemma Distribute(a: int, b: int, c: int)
    ensures a * (b + c) == a * b + a * c
  {
  }

  /** The bounds on a total of n delays whose undisturbed values add up to total. */
  ghost predicate DelaysBetween(sum: int, total: int, n: nat) {
    0.8 * total as real - 0.5 * n as real <= sum as real <= 1.2 * total as real + 0.5 * n as real
  }

  lemma OneMoreDelay(sum: int, total: int, n: nat, step: nat, jitter: real)
    requires DelaysBetween(sum, total, n) && 0.8 <= jitter < 1.2
    ensures DelaysBetween(sum + Jitter(step, jitter), total + step, n + 1)
  {
    JitteredDelay(step, jitter);
  }

  lemma {:induction false} DelaysStayBetween(baseMs: nat, jitters: seq<real>)
    requires forall i :: 0 <= i < |jitters| ==> 0.8 <= jitters[i] < 1.2
    ensures DelaysBetween(DelaySum(baseMs, jitters), Steps(baseMs, |jitters|), |jitters|)
  {
    if |jitters| > 0 {
      var n := |jitters| - 1;
      DelaysStayBetween(baseMs, jitters[..n]);
      OneMoreDelay(DelaySum(baseMs, jitters[..n]), Steps(baseMs, n), n, Step(baseMs, n), jitters[n]);
    }
  }

  /** n retries wait between 0.8 and 1.2 times base * (2^n - 1) in all, give or take half a millisecond each. */
  lemma TotalDelay(baseMs: nat, jitters: seq<real>)
    requires forall i :: 0 <= i < |jitters| ==> 0.8 <= jitters[i] < 1.2
    ensures DelaysBetween(DelaySum(baseMs, jitters), baseMs * (Pow2(|jitters|) - 1), |jitters|)
  {
    DelaysStayBetween(baseMs, jitters);
    StepsAddUp(baseMs, |jitters|);
  }
}
