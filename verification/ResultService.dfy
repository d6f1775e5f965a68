/** Hiring's consumer of screening results and its Recruiter's decisions, over the in-memory repository. */
module ResultService {
  import opened Prelude
  import opened Openings
  import opened Screening
  import opened Archive
  import opened Handover
  import Protocol
  import MemoryRepository

  /** What became of a delivered answer. */
  datatype Disposition = Acked | DeadLettered | Requeued

  /** What happens to an answer for this archive: the protocol's rule, for the entry the archive holds. */
  ghost function Ruled(a: seq<Batch>, batchId: string, resumeId: string, reading: Reading, now: Time): Protocol.Ruling {
    if !Stored(a, resumeId) || a[Holder(a, resumeId)].id != batchId then Protocol.Refuse
    else Protocol.Rule(a[Holder(a, resumeId)].criteria, EntryOf(a, resumeId), reading, now)
  }

  class Service {
    const batches: MemoryRepository.Repository

    constructor (batches: MemoryRepository.Repository)
      ensures this.batches == batches
    {
      this.batches := batches;
    }

    /** Stores one answer; `saves` is whether the database takes the write. */
    method RecordScreeningResult(batchId: string, resumeId: string, reading: Reading, now: Time, saves: bool)
      returns (r: Result<(), ScreeningError>)
      requires batches.Valid()
      modifies batches`batches
      ensures batches.Valid()
      ensures
        match Ruled(old(batches.Value()), batchId, resumeId, reading, now)
        case Keep(e) =>
          && Stored(old(batches.Value()), resumeId) && e.resumeId == resumeId
          && r == (if saves then Ok(()) else Err(StorageError))
          && batches.Value() == if saves then Replaced(old(batches.Value()), e) else old(batches.Value())
        case Ignore => r == Err(AlreadyCompleted) && batches.Value() == old(batches.Value())
        case Refuse =>
          && r == Err(if Stored(old(batches.Value()), resumeId) then InvalidScreening else ResumeNotFound)
          && batches.Value() == old(batches.Value())
      ensures Stored(old(batches.Value()), resumeId)
              && old(batches.Value())[Holder(old(batches.Value()), resumeId)].id != batchId ==>
        r == Err(InvalidScreening) && batches.Value() == old(batches.Value())
    {
      var found := batches.FindBatchOfResume(resumeId);
      if found.Err? {
        return Err(found.error);
      }
      if found.value.id != batchId {
        return Err(InvalidScreening);
      }
      var b := new ScreeningBatch(found.value);
      var answer := reading.result.(completedAt := now);
      var recorded := b.RecordResult(resumeId, reading.status, answer);
      if recorded.Err? {
        return recorded;
      }
      if !saves {
        return Err(StorageError);
      }
      var i := b.Find(resumeId);
      KeepsItsPlace(found.value.entries, resumeId,
          Recorded(EntryOf(batches.Value(), resumeId), reading.status, answer));
      var saved := batches.SaveEntry(b.entries[i]);
      return if saved.Ok? then Ok(()) else Err(StorageError);
    }

    /** Applies a Recruiter's decision to one resume of an opening, and saves it only if the domain allows it. */
    method Decide(openingId: string, resumeId: string, choice: Protocol.Choice,
                  saves: bool) returns (r: Result<Entry, ScreeningError>)
      requires batches.Valid()
      modifies batches`batches
      ensures batches.Valid()
      ensures
        var a := old(batches.Value());
        if !Stored(a, resumeId) || a[Holder(a, resumeId)].jobOpeningId != openingId
        then r == Err(ResumeNotFound) && batches.Value() == a
        else match Protocol.Decided(EntryOf(a, resumeId), choice)
             case None =>
               && r == Err(if choice.OverrideTo? && EntryOf(a, resumeId).status.ScreenedOk? then InvalidScreening
                           else TransitionRefused)
               && batches.Value() == a
             case Some(e) =>
               && e.resumeId == resumeId
               && r == (if saves then Ok(e) else Err(StorageError))
               && batches.Value() == if saves then Replaced(a, e) else a
    {
      var found := batches.FindBatchOfResume(resumeId);
      if found.Err? {
        return Err(ResumeNotFound);
      }
      if found.value.jobOpeningId != openingId {
        return Err(ResumeNotFound);
      }
      var b := new ScreeningBatch(found.value);
      var i := b.Find(resumeId);
      var allowed;
      match choice {
        case OverrideTo(score, at) => allowed := b.OverrideScore(i, score, at);
        case ShortlistAt(at) => allowed := b.Shortlist(i, at);
      }
      if allowed.Err? {
        return Err(allowed.error);
      }
      if !saves {
        return Err(StorageError);
      }
      var _ := batches.SaveEntry(b.entries[i]);
      return Ok(b.entries[i]);
    }

    /**
     * handle: acknowledged once recorded or when it repeats one recorded, dead-lettered when it can never
     * be accepted, and otherwise put back. `copies` is whether the dead-letter queue takes the copy; when
     * it does not, the original goes back too.
     */
    method Handle(body: Option<Completed>, now: Time, saves: bool, copies: bool) returns (d: Disposition)
      requires batches.Valid()
      modifies batches`batches
      ensures batches.Valid()
      ensures
        var a, refused := old(batches.Value()), if copies then DeadLettered else Requeued;
        if body == None || ReadAnswer(body.value) == None then d == refused && batches.Value() == a
        else match Ruled(a, body.value.key.batchId, body.value.key.resumeId, ReadAnswer(body.value).value, now)
             case Keep(e) =>
               && Stored(a, e.resumeId)
               && d == (if saves then Acked else Requeued)
               && batches.Value() == if saves then Replaced(a, e) else a
             case Ignore => d == Acked && batches.Value() == a
             case Refuse => d == refused && batches.Value() == a
    {
      if body == None {
        return DeadLetter(copies);
      }
      var m := body.value;
      var reading := ToDomain(m);
      if reading == None {
        return DeadLetter(copies);
      }
      var recorded := RecordScreeningResult(m.key.batchId, m.key.resumeId, reading.value, now, saves);
      if recorded.Ok? {
        return Acked;
      }
      match recorded.error {
        case AlreadyCompleted => return Acked;
        case InvalidScreening | ResumeNotFound => return DeadLetter(copies);
        case _ => return Requeued;
      }
    }
  }

  /** deadLetter: the copy first, the acknowledgement only once the broker has it. */
  function DeadLetter(copies: bool): Disposition {
    if copies then DeadLettered else Requeued
  }

  lemma KeepsItsPlace(entries: seq<Entry>, resumeId: string, e: Entry)
    requires IndexOf(entries, resumeId) < |entries| && e.resumeId == resumeId
    ensures IndexOf(entries[IndexOf(entries, resumeId) := e], resumeId) == IndexOf(entries, resumeId)
  {
    MemoryRepository.SameResumes(entries, IndexOf(entries, resumeId), e);
  }
}
