/** Interview guides: the questions for one candidate, their ids, and the notes that stay with them. */
module InterviewGuides {
  import opened Prelude
  import opened Openings
  import opened CriterionIds

  datatype Kind = ResumeClaim | MustHaveGap | RoleDepth | OtherKind(text: string)

  datatype Question = Question(id: string, text: string, criterion: string, evidence: string, kind: Kind, note: string)

  datatype Attribution = Attribution(provider: string, model: string, promptVersion: string)

  const NO_MODEL := Attribution("", "", "")

  datatype Source = Generated | Edited

  datatype Guide = Guide(
    id: string, jobOpeningId: string, candidateId: string, questions: seq<Question>, emphasis: string, source: Source,
    attribution: Attribution, revision: nat, createdAt: Time, updatedAt: Time)

  datatype GuideError = InvalidInterviewGuide | QuestionNotFound

  /** q1, q2, ... by position. */
  function QuestionID(position: nat): string {
    "q" + Itoa(position + 1)
  }

  /** An id is the letter q and the decimal numeral of the position counted from one. */
  lemma QuestionIDSpells(position: nat)
    ensures
      var id := QuestionID(position);
      |id| > 1 && id[0] == 'q' && AllDigits(id[1..]) && id[1] != '0' && Number(id[1..]) == position + 1
  {
    assert QuestionID(position)[1..] == Itoa(position + 1);
    NumberOfItoa(position + 1);
  }

  lemma QuestionIDIsInjective(p: nat, q: nat)
    requires QuestionID(p) == QuestionID(q)
    ensures p == q
  {
    assert QuestionID(p)[1..] == Itoa(p + 1) && QuestionID(q)[1..] == Itoa(q + 1);
    NumberOfItoa(p + 1);
    NumberOfItoa(q + 1);
  }

  predicate Numbered(questions: seq<Question>) {
    forall i :: 0 <= i < |questions| ==> questions[i].id == QuestionID(i)
  }

  ghost predicate Askable(q: Question) {
    !Blank(q.text) && !Blank(q.criterion) && !q.kind.OtherKind?
  }

  ghost predicate ValidQuestions(questions: seq<Question>) {
    questions != [] && forall i :: 0 <= i < |questions| ==> Askable(questions[i])
  }

  /** A question that can be asked: something in its text and its criterion, of a known kind. */
  ghost predicate TextedAndTagged(q: Question) {
    && (exists k :: 0 <= k < |q.text| && !IsSpace(q.text[k]))
    && (exists k :: 0 <= k < |q.criterion| && !IsSpace(q.criterion[k]))
    && q.kind in {ResumeClaim, MustHaveGap, RoleDepth}
  }

  /** Which sets a guide can have: some questions, all of them such ones. */
  lemma ValidQuestionsIff(questions: seq<Question>)
    ensures ValidQuestions(questions) <==> questions != [] && forall q :: q in questions ==> TextedAndTagged(q)
  {
    forall i | 0 <= i < |questions|
      ensures questions[i] in questions && (Askable(questions[i]) <==> TextedAndTagged(questions[i]))
    {
    }
  }

  /** validateQuestions. */
  method ValidateQuestions(questions: seq<Question>) returns (ok: bool)
    ensures ok <==> ValidQuestions(questions)
  {
    if |questions| == 0 {
      return false;
    }
    for i := 0 to |questions|
      invariant forall k :: 0 <= k < i ==> Askable(questions[k])
    {
      TrimSpaceIs(questions[i].text);
      TrimSpaceIs(questions[i].criterion);
      if TrimSpace(questions[i].text) == "" || TrimSpace(questions[i].criterion) == "" || questions[i].kind.OtherKind? {
        return false;
      }
    }
    return true;
  }

  function Renumbered(questions: seq<Question>): (r: seq<Question>)
    ensures |r| == |questions| && Numbered(r)
    ensures forall i :: 0 <= i < |r| ==> r[i] == questions[i].(id := QuestionID(i))
  {
    seq(|questions|, i requires 0 <= i < |questions| => questions[i].(id := QuestionID(i)))
  }

  /** numbered. */
  method AssignIds(questions: seq<Question>) returns (out: seq<Question>)
    ensures out == Renumbered(questions)
  {
    out := [];
    for i := 0 to |questions|
      invariant out == Renumbered(questions)[..i]
    {
      out := out + [questions[i].(id := "q" + Itoa(i + 1))];
    }
  }

  /** The note of the last question with this text that has one; none reads as the empty text. */
  function NoteFor(before: seq<Question>, text: string): string {
    if before == [] then ""
    else
      var last := before[|before| - 1];
      if last.text == text && last.note != "" then last.note else NoteFor(before[..|before| - 1], text)
  }

  function Carried(before: seq<Question>, after: seq<Question>): (r: seq<Question>)
    ensures |r| == |after|
    ensures forall i :: 0 <= i < |r| ==>
        r[i] == if after[i].note == "" then after[i].(note := NoteFor(before, after[i].text)) else after[i]
  {
    seq(|after|, i requires 0 <= i < |after| =>
        if after[i].note == "" then after[i].(note := NoteFor(before, after[i].text)) else after[i])
  }

  /** carryNotes. */
  method CarryNotes(before: seq<Question>, after: seq<Question>) returns (out: seq<Question>)
    ensures out == Carried(before, after)
  {
    var notes: map<string, string> := map[];
    for i := 0 to |before|
      invariant forall text :: (if text in notes then notes[text] else "") == NoteFor(before[..i], text)
    {
      assert before[..i + 1][..i] == before[..i];
      if before[i].note != "" {
        notes := notes[before[i].text := before[i].note];
      }
    }
    assert before[..|before|] == before;
    out := after;
    for i := 0 to |after|
      invariant |out| == |after|
      invariant forall k :: 0 <= k < i ==> out[k] == Carried(before, after)[k]
      invariant forall k :: i <= k < |after| ==> out[k] == after[k]
    {
      if out[i].note == "" {
        out := out[i := out[i].(note := if out[i].text in notes then notes[out[i].text] else "")];
      }
    }
  }

  /** What a change does to a guide, when it is allowed. */
  function Generate(g: Guide, questions: seq<Question>, emphasis: string, attribution: Attribution, at: Time): Guide {
    g.(questions := Renumbered(questions), emphasis := TrimSpace(emphasis), source := Generated,
      attribution := attribution, revision := g.revision + 1, updatedAt := at)
  }

  function Edit(g: Guide, questions: seq<Question>, at: Time): Guide {
    g.(questions := Carried(g.questions, Renumbered(questions)), source := Edited, attribution := NO_MODEL,
       revision := g.revision + 1, updatedAt := at)
  }

  function Noted(g: Guide, i: nat, note: string, at: Time): Guide
    requires i < |g.questions|
  {
    g.(questions := g.questions[i := g.questions[i].(note := note)], updatedAt := at)
  }

  /** A generation replaces the set, the emphasis and the attribution, and counts a revision; all else is kept. */
  lemma GenerateSays(g: Guide, questions: seq<Question>, emphasis: string, attribution: Attribution, at: Time)
    ensures
      var now := Generate(g, questions, emphasis, attribution, at);
      && |now.questions| == |questions| && now.emphasis == TrimSpace(emphasis) && now.source.Generated?
      && now.attribution == attribution && now.revision == g.revision + 1 && now.updatedAt == at
      && now.id == g.id && now.jobOpeningId == g.jobOpeningId && now.candidateId == g.candidateId
      && now.createdAt == g.createdAt
      && forall i :: 0 <= i < |questions| ==> SameButId(now.questions[i], questions[i])
  {
  }

  ghost predicate SameButId(q: Question, own: Question) {
    q.text == own.text && q.criterion == own.criterion && q.evidence == own.evidence && q.kind == own.kind
    && q.note == own.note
  }

  /** An edit takes the Recruiter's questions, and of each either its own note or the one carried over. */
  lemma EditSays(g: Guide, questions: seq<Question>, at: Time)
    ensures
      var now := Edit(g, questions, at);
      && |now.questions| == |questions| && now.emphasis == g.emphasis && now.source.Edited?
      && now.attribution == Attribution("", "", "") && now.revision == g.revision + 1 && now.updatedAt == at
      && now.id == g.id && now.jobOpeningId == g.jobOpeningId && now.candidateId == g.candidateId
      && now.createdAt == g.createdAt
      && forall i :: 0 <= i < |questions| ==>
           && SameButId(now.questions[i].(note := questions[i].note), questions[i])
           && (questions[i].note != "" ==> now.questions[i].note == questions[i].note)
           && (questions[i].note == "" ==> LastNote(g.questions, questions[i].text, now.questions[i].note))
  {
    forall i | 0 <= i < |questions| && questions[i].note == ""
      ensures LastNote(g.questions, questions[i].text, Edit(g, questions, at).questions[i].note)
    {
      NoteForIsLast(g.questions, questions[i].text);
    }
  }

  /** The note the last question with this text carries that carries one at all. */
  ghost predicate LastNote(before: seq<Question>, text: string, note: string) {
    || (note == "" && forall i :: 0 <= i < |before| && before[i].text == text ==> before[i].note == "")
    || (note != "" && exists i :: 0 <= i < |before| && before[i].text == text && before[i].note == note
                               && forall k :: i < k < |before| && before[k].text == text ==> before[k].note == "")
  }

  lemma {:induction false} NoteForIsLast(before: seq<Question>, text: string)
    ensures LastNote(before, text, NoteFor(before, text))
  {
    if before != [] {
      var n := |before| - 1;
      if before[n].text != text || before[n].note == "" {
        NoteForIsLast(before[..n], text);
        var note := NoteFor(before[..n], text);
        if note != "" {
          var i :| 0 <= i < n && before[..n][i].text == text && before[..n][i].note == note
              && forall k :: i < k < n && before[..n][k].text == text ==> before[..n][k].note == "";
          assert before[i].text == text && before[i].note == note;
          assert forall k :: i < k < |before| && before[k].text == text ==> before[k].note == "" by {
            assert forall k :: i < k < n ==> before[k] == before[..n][k];
          }
        } else {
          assert forall k :: 0 <= k < n ==> before[k] == before[..n][k];
        }
      } else {
        assert before[n].note == NoteFor(before, text);
      }
    }
  }

  /** Recording puts the note on that question, whatever it carried before, and leaves every other as it is. */
  lemma NotedSays(g: Guide, i: nat, note: string, at: Time)
    requires i < |g.questions|
    ensures
      var now := Noted(g, i, note, at);
      && |now.questions| == |g.questions| && now.questions[i].note == note && now.updatedAt == at
      && now.questions[i].id == g.questions[i].id
          && SameButId(now.questions[i].(note := g.questions[i].note), g.questions[i])
      && (forall k :: 0 <= k < |g.questions| && k != i ==> now.questions[k] == g.questions[k])
      && now == g.(questions := now.questions, updatedAt := at)
  {
  }

  class InterviewGuide {
    const id: string
    const jobOpeningId: string
    const candidateId: string
    var questions: seq<Question>
    var emphasis: string
    var source: Source
    var attribution: Attribution
    var revision: nat
    const createdAt: Time
    var updatedAt: Time

    ghost function Value(): Guide
      reads this
    {
      Guide(id, jobOpeningId, candidateId, questions, emphasis, source, attribution, revision, createdAt, updatedAt)
    }

    constructor (g: Guide)
      ensures Value() == g
      ensures id == g.id && jobOpeningId == g.jobOpeningId && candidateId == g.candidateId && questions == g.questions
      ensures emphasis == g.emphasis && source == g.source && attribution == g.attribution && revision == g.revision
      ensures createdAt == g.createdAt && updatedAt == g.updatedAt
    {
      id, jobOpeningId, candidateId, createdAt := g.id, g.jobOpeningId, g.candidateId, g.createdAt;
      questions, emphasis, source, attribution := g.questions, g.emphasis, g.source, g.attribution;
      revision, updatedAt := g.revision, g.updatedAt;
    }

    /** Replaces every question with a newly generated set; a refused one alters nothing. */
    method Regenerate(generated: seq<Question>, steer: string, model: Attribution,
                      at: Time) returns (r: Result<(), GuideError>)
      modifies this
      ensures r == if ValidQuestions(generated) then Ok(()) else Err(InvalidInterviewGuide)
      ensures Value() == if r.Ok? then Generate(old(Value()), generated, steer, model, at) else old(Value())
    {
      var valid := ValidateQuestions(generated);
      if !valid {
        return Err(InvalidInterviewGuide);
      }
      questions := AssignIds(generated);
      emphasis := TrimSpace(steer);
      source, attribution := Generated, model;
      revision, updatedAt := revision + 1, at;
      return Ok(());
    }

    /** Takes the Recruiter's own set; a refused one alters nothing. */
    method ReplaceQuestions(own: seq<Question>, at: Time) returns (r: Result<(), GuideError>)
      modifies this
      ensures r == if ValidQuestions(own) then Ok(()) else Err(InvalidInterviewGuide)
      ensures Value() == if r.Ok? then Edit(old(Value()), own, at) else old(Value())
    {
      var valid := ValidateQuestions(own);
      if !valid {
        return Err(InvalidInterviewGuide);
      }
      var numbered := AssignIds(own);
      questions := CarryNotes(questions, numbered);
      source, attribution := Edited, NO_MODEL;
      revision, updatedAt := revision + 1, at;
      return Ok(());
    }

    /** Stores a note against the question with this id, and touches no other. */
    method RecordNote(questionId: string, note: string, at: Time) returns (r: Result<(), GuideError>)
      modifies this
      ensures r.Ok? <==> exists i :: 0 <= i < |old(questions)| && old(questions)[i].id == questionId
      ensures r.Err? ==> r.error == QuestionNotFound && Value() == old(Value())
      ensures r.Ok? ==> exists i ::
          0 <= i < |old(questions)| && old(questions)[i].id == questionId && Value() == Noted(old(Value()), i, note, at)
      ensures Numbered(old(questions)) ==>
        forall i: nat :: i < |old(questions)| && QuestionID(i) == questionId ==>
            Value() == Noted(old(Value()), i, note, at)
    {
      for i := 0 to |questions|
        invariant forall k: nat :: k < i ==> questions[k].id != questionId
        invariant Value() == old(Value())
      {
        if questions[i].id == questionId {
          assert Numbered(questions) ==> questions[i].id == QuestionID(i);
          forall k: nat | Numbered(questions) && QuestionID(k) == questionId
            ensures k == i
          {
            QuestionIDIsInjective(k, i);
          }
          questions := questions[i := questions[i].(note := note)];
          updatedAt := at;
          return Ok(());
        }
      }
      return Err(QuestionNotFound);
    }
  }

  /** NewInterviewGuide's guide, when it makes one. */
  method NewInterviewGuide(id: string, jobOpeningId: string, candidateId: string, questions: seq<Question>,
                           emphasis: string,
                           model: Attribution, at: Time)
    returns (r: Result<InterviewGuide, GuideError>)
    ensures r.Ok? <==> !Blank(jobOpeningId) && !Blank(candidateId) && ValidQuestions(questions)
    ensures r.Err? ==> r.error == InvalidInterviewGuide
    ensures r.Ok? ==>
        fresh(r.value) && r.value.Value() == First(id, jobOpeningId, candidateId, questions, emphasis, model, at)
  {
    TrimSpaceIs(jobOpeningId);
    TrimSpaceIs(candidateId);
    if TrimSpace(jobOpeningId) == "" || TrimSpace(candidateId) == "" {
      return Err(InvalidInterviewGuide);
    }
    var valid := ValidateQuestions(questions);
    if !valid {
      return Err(InvalidInterviewGuide);
    }
    var numbered := AssignIds(questions);
    var g := new InterviewGuide(Guide(id, jobOpeningId, candidateId, numbered, TrimSpace(emphasis), Generated, model, 1,
        at, at));
    return Ok(g);
  }

  function First(id: string, jobOpeningId: string, candidateId: string, questions: seq<Question>, emphasis: string,
                 model: Attribution, at: Time): Guide {
    Guide(id, jobOpeningId, candidateId, Renumbered(questions), TrimSpace(emphasis), Generated, model, 1, at, at)
  }

  /** A new guide is the first revision of a generated set, made and last changed at the same time. */
  lemma FirstSays(id: string, jobOpeningId: string, candidateId: string, questions: seq<Question>, emphasis: string,
                  model: Attribution, at: Time)
    ensures
      var g := First(id, jobOpeningId, candidateId, questions, emphasis, model, at);
      && g.id == id && g.jobOpeningId == jobOpeningId && g.candidateId == candidateId
          && g.emphasis == TrimSpace(emphasis)
      && g.source.Generated? && g.attribution == model && g.revision == 1 && g.createdAt == at && g.updatedAt == at
      && |g.questions| == |questions| && forall i :: 0 <= i < |questions| ==> SameButId(g.questions[i], questions[i])
  {
  }

  // ---------- Runs ----------

  datatype Op =
    | Regenerate(questions: seq<Question>, emphasis: string, model: Attribution, at: Time)
    | ReplaceQuestions(questions: seq<Question>, at: Time)
    | RecordNote(position: nat, note: string, at: Time) // by id, which names the position

  /** A note and the text of the question it was written against. */
  datatype Writing = Writing(text: string, note: string)

  datatype Run = Run(guide: Guide, changes: nat)

  function NotesIn(questions: seq<Question>): set<Writing> {
    set i | 0 <= i < |questions| && questions[i].note != "" :: Writing(questions[i].text, questions[i].note)
  }

  ghost function Step(r: Run, op: Op): Run {
    match op
    case Regenerate(questions, emphasis, model, at) =>
      if !ValidQuestions(questions) then r
      else Run(Generate(r.guide, questions, emphasis, model, at), r.changes + 1)
    case ReplaceQuestions(questions, at) =>
      if !ValidQuestions(questions) then r else Run(Edit(r.guide, questions, at), r.changes + 1)
    case RecordNote(i, note, at) =>
      if i >= |r.guide.questions| then r else Run(Noted(r.guide, i, note, at), r.changes)
  }

  /** The notes an operation writes: those its questions bring, or the one it records. */
  ghost function WrittenBy(r: Run, op: Op): set<Writing> {
    match op
    case Regenerate(questions, _, _, _) => if ValidQuestions(questions) then NotesIn(questions) else {}
    case ReplaceQuestions(questions, _) => if ValidQuestions(questions) then NotesIn(questions) else {}
    case RecordNote(i, note, _) => if i < |r.guide.questions| then {Writing(r.guide.questions[i].text, note)} else {}
  }

  ghost function After(r: Run, ops: seq<Op>): Run
    decreases |ops|
  {
    if ops == [] then r else After(Step(r, ops[0]), ops[1..])
  }

  /** What holds of a guide from its first generation on. */
  ghost predicate Inv(r: Run, first: Guide) {
    var g := r.guide;
    && g.questions != [] && Numbered(g.questions) && (forall i :: 0 <= i < |g.questions| ==> Askable(g.questions[i]))
    && (g.source == Edited ==> g.attribution == NO_MODEL)
    && g.revision == 1 + r.changes
    && g.id == first.id && g.jobOpeningId == first.jobOpeningId && g.candidateId == first.candidateId
    && g.createdAt == first.createdAt
  }

  lemma StepKeepsInv(r: Run, op: Op, first: Guide)
    requires Inv(r, first)
    ensures Inv(Step(r, op), first)
  {
  }

  /**
   * Over every run: ids are exactly q1..qn, an edited guide names no model, each accepted change counts one
   * revision, and the guide's identity never changes.
   */
  lemma {:induction false} GuidesStayInOrder(r: Run, ops: seq<Op>, first: Guide)
    requires Inv(r, first)
    ensures Inv(After(r, ops), first)
    decreases |ops|
  {
    if ops != [] {
      StepKeepsInv(r, ops[0], first);
      GuidesStayInOrder(Step(r, ops[0]), ops[1..], first);
    }
  }

  lemma NewGuidesAreInOrder(id: string, jobOpeningId: string, candidateId: string, questions: seq<Question>,
                            emphasis: string, model: Attribution, at: Time)
    requires ValidQuestions(questions)
    ensures
      var g := First(id, jobOpeningId, candidateId, questions, emphasis, model, at);
      Inv(Run(g, 0), g) && NotesIn(g.questions) == NotesIn(questions)
  {
    RenumberingKeepsNotes(questions);
  }

  lemma RenumberingKeepsNotes(questions: seq<Question>)
    ensures NotesIn(Renumbered(questions)) == NotesIn(questions)
  {
    var out := Renumbered(questions);
    assert forall i :: 0 <= i < |questions| ==> out[i].text == questions[i].text && out[i].note == questions[i].note;
  }

  // ---------- Where notes come from ----------

  lemma {:induction false} NoteForIsWritten(before: seq<Question>, text: string)
    ensures NoteFor(before, text) != "" ==> Writing(text, NoteFor(before, text)) in NotesIn(before)
  {
    if before != [] {
      var last := before[|before| - 1];
      NoteForIsWritten(before[..|before| - 1], text);
      assert NotesIn(before[..|before| - 1]) <= NotesIn(before) by {
        forall w | w in NotesIn(before[..|before| - 1])
          ensures w in NotesIn(before)
        {
          var i :| 0 <= i < |before| - 1 && before[..|before| - 1][i].note != ""
              && w == Writing(before[..|before| - 1][i].text, before[..|before| - 1][i].note);
          assert before[i].note != "" && w == Writing(before[i].text, before[i].note);
        }
      }
      if last.text == text && last.note != "" {
        assert Writing(before[|before| - 1].text, before[|before| - 1].note) in NotesIn(before);
      }
    }
  }

  /** A note on a question is one that was there, against the very same text, or one just written. */
  lemma NotesComeFromWriting(r: Run, op: Op, w: Writing)
    requires w in NotesIn(Step(r, op).guide.questions)
    ensures w in NotesIn(r.guide.questions) || w in WrittenBy(r, op)
    ensures op.Regenerate? && ValidQuestions(op.questions) ==> w in WrittenBy(r, op)
  {
    var now := Step(r, op).guide.questions;
    var i :| 0 <= i < |now| && now[i].note != "" && w == Writing(now[i].text, now[i].note);
    match op
    case Regenerate(questions, _, _, _) =>
      if ValidQuestions(questions) {
        RenumberingKeepsNotes(questions);
      }
    case ReplaceQuestions(questions, _) =>
      if ValidQuestions(questions) {
        if questions[i].note == "" {
          NoteForIsWritten(r.guide.questions, questions[i].text);
        } else {
          assert w == Writing(questions[i].text, questions[i].note);
        }
      }
    case RecordNote(k, _, _) =>
      if k < |r.guide.questions| && i != k {
        assert r.guide.questions[i] == now[i];
      }
  }

  /** Recording over a note takes it off the guide, unless another question with the same text carries it too. */
  lemma OverwrittenIff(r: Run, i: nat, note: string, at: Time)
    requires i < |r.guide.questions| && r.guide.questions[i].note != ""
    ensures
      var before, now := r.guide.questions, Step(r, RecordNote(i, note, at)).guide.questions;
      Writing(before[i].text, before[i].note) in NotesIn(now) <==>
        note == before[i].note ||
        exists k :: 0 <= k < |before| && k != i && before[k].text == before[i].text && before[k].note == before[i].note
  {
    var before, now := r.guide.questions, Step(r, RecordNote(i, note, at)).guide.questions;
    var w := Writing(before[i].text, before[i].note);
    assert now[i].text == before[i].text && now[i].note == note;
    assert forall k :: 0 <= k < |before| && k != i ==> now[k] == before[k];
    if w in NotesIn(now) {
      var k :| 0 <= k < |now| && now[k].note != "" && w == Writing(now[k].text, now[k].note);
      assert k != i ==> before[k].text == before[i].text && before[k].note == before[i].note;
    }
    if note == before[i].note {
      assert w == Writing(now[i].text, now[i].note);
    }
    if k :| 0 <= k < |before| && k != i && before[k].text == before[i].text && before[k].note == before[i].note {
      assert w == Writing(now[k].text, now[k].note);
    }
  }

  /** No operation of the run writes this note. */
  ghost predicate NeverWritten(r: Run, ops: seq<Op>, w: Writing)
    decreases |ops|
  {
    ops != [] ==> w !in WrittenBy(r, ops[0]) && NeverWritten(Step(r, ops[0]), ops[1..], w)
  }

  /**
   * A note that is not on the guide - overwritten, dropped with its question, or gone with a generation -
   * does not come back by itself: over every run, only writing it against that text again puts it there.
   */
  lemma {:induction false} NotesDoNotComeBack(r: Run, ops: seq<Op>, w: Writing)
    requires w !in NotesIn(r.guide.questions) && NeverWritten(r, ops, w)
    ensures w !in NotesIn(After(r, ops).guide.questions)
    decreases |ops|
  {
    if ops != [] {
      if w in NotesIn(Step(r, ops[0]).guide.questions) {
        NotesComeFromWriting(r, ops[0], w);
      }
      NotesDoNotComeBack(Step(r, ops[0]), ops[1..], w);
    }
  }

  // ---------- Keeping notes ----------

  /** Questions with the same text carry the same note; distinct questions do. */
  predicate OneNotePerText(questions: seq<Question>) {
    forall i, k :: 0 <= i < k < |questions| && questions[i].text == questions[k].text ==>
        questions[i].note == questions[k].note
  }

  lemma {:induction false} NoteForIs(before: seq<Question>, i: nat)
    requires i < |before| && OneNotePerText(before)
    ensures NoteFor(before, before[i].text) == before[i].note
  {
    var last := |before| - 1;
    if before[last].text == before[i].text {
      if before[last].note == "" {
        NoNoteFor(before, before[i].text);
      }
    } else {
      NoteForIs(before[..last], i);
    }
  }

  lemma {:induction false} NoNoteFor(before: seq<Question>, text: string)
    requires forall k :: 0 <= k < |before| && before[k].text == text ==> before[k].note == ""
    ensures NoteFor(before, text) == ""
  {
    if before != [] {
      NoNoteFor(before[..|before| - 1], text);
    }
  }

  /** The Recruiter's set after a replacement, note for note. */
  ghost predicate NotesKept(before: seq<Question>, after: seq<Question>) {
    forall i, j :: 0 <= i < |before| && 0 <= j < |after| && before[i].text == after[j].text ==>
        after[j].note == before[i].note
  }

  /**
   * Replacing the questions by any set that has all their texts and brings no notes - a permutation, say -
   * keeps every note exactly when no two of them share a text with different notes.
   */
  lemma ReplacingKeepsNotesIff(before: seq<Question>, own: seq<Question>)
    requires forall j :: 0 <= j < |own| ==> own[j].note == ""
    requires forall i :: 0 <= i < |before| ==> exists j :: 0 <= j < |own| && own[j].text == before[i].text
    ensures NotesKept(before, Carried(before, Renumbered(own))) <==> OneNotePerText(before)
  {
    var after := Carried(before, Renumbered(own));
    assert forall j :: 0 <= j < |own| ==> after[j].text == own[j].text && after[j].note == NoteFor(before, own[j].text);
    if OneNotePerText(before) {
      forall i, j | 0 <= i < |before| && 0 <= j < |after| && before[i].text == after[j].text
        ensures after[j].note == before[i].note
      {
        NoteForIs(before, i);
      }
    }
    if NotesKept(before, after) {
      forall i, k | 0 <= i < k < |before| && before[i].text == before[k].text
        ensures before[i].note == before[k].note
      {
        var j :| 0 <= j < |own| && own[j].text == before[i].text;
        assert after[j].text == before[i].text && after[j].text == before[k].text;
      }
    }
  }
}
