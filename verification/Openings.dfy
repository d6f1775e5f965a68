/** Job openings: the criteria a Recruiter confirms, and the lifecycle that decides who may use them. */
module Openings {
  import opened Prelude

  /** Nanoseconds since Go's zero time, which is what IsZero tests for. */
  type Time = int

  const ZERO_TIME: Time := 0

  /** Any other text arrives as Unlisted, and validation refuses it. */
  datatype Classification = MustHave | NiceToHave | Unlisted(text: string)

  /** The weight as entered; only a validated one is known to be positive. */
  datatype Criterion = Criterion(name: string, classification: Classification, weight: int)

  datatype Status = Open | Paused | Closed

  datatype Outcome = Filled | Cancelled | OtherOutcome(text: string)

  datatype OpeningError = InvalidJobOpening | InvalidTransition

  datatype Draft = Draft(title: string, description: string, criteria: seq<Criterion>, expectedTimeToFill: int)

  /** A job opening as stored and returned: what the class below holds. */
  datatype Opening = Opening(
    id: string,
    title: string,
    description: string,
    criteria: seq<Criterion>,
    expectedTimeToFill: int,
    status: Status,
    openedAt: Time,
    outcome: Option<Outcome>)

  /** unicode.IsSpace on Latin-1. */
  predicate IsSpace(c: char) {
    c == ' ' || '\t' <= c <= '\r' || c == '\U{0085}' || c == '\U{00A0}'
  }

  function TrimLeft(s: string): string {
    if |s| > 0 && IsSpace(s[0]) then TrimLeft(s[1..]) else s
  }

  function TrimRight(s: string): string {
    if |s| > 0 && IsSpace(s[|s| - 1]) then TrimRight(s[..|s| - 1]) else s
  }

  /** strings.TrimSpace. */
  function TrimSpace(s: string): string {
    TrimRight(TrimLeft(s))
  }

  ghost predicate Blank(s: string) {
    forall i :: 0 <= i < |s| ==> IsSpace(s[i])
  }

  lemma {:induction false} TrimLeftIs(s: string)
    ensures Blank(s) <==> TrimLeft(s) == ""
    ensures |TrimLeft(s)| > 0 ==> !IsSpace(TrimLeft(s)[0])
  {
    if |s| > 0 && IsSpace(s[0]) {
      TrimLeftIs(s[1..]);
    }
  }

  lemma {:induction false} TrimRightIs(s: string)
    ensures Blank(s) <==> TrimRight(s) == ""
    ensures |TrimRight(s)| > 0 ==> !IsSpace(TrimRight(s)[|TrimRight(s)| - 1])
    ensures |TrimRight(s)| > 0 ==> TrimRight(s)[0] == s[0]
  {
    if |s| > 0 && IsSpace(s[|s| - 1]) {
      TrimRightIs(s[..|s| - 1]);
    }
  }

  /** What TrimSpace leaves: nothing of a blank text, and no space at either end of another. */
  lemma TrimSpaceIs(s: string)
    ensures TrimSpace(s) == "" <==> Blank(s)
    ensures TrimSpace(TrimSpace(s)) == TrimSpace(s)
  {
    TrimLeftIs(s);
    TrimRightIs(TrimLeft(s));
    assert Blank(TrimLeft(s)) ==> TrimLeft(s) == "" by {
      if |TrimLeft(s)| > 0 {
        assert !IsSpace(TrimLeft(s)[0]);
      }
    }
  }

  ghost predicate ScorableCriterion(c: Criterion) {
    !Blank(c.name) && !c.classification.Unlisted? && c.weight > 0
  }

  /** What every criterion that can be scored against satisfies. */
  ghost predicate ScorableCriteria(criteria: seq<Criterion>) {
    && |criteria| > 0
    && forall i :: 0 <= i < |criteria| ==> ScorableCriterion(criteria[i])
  }

  /** A criterion that can be scored: something in its name, classified, of positive weight. */
  ghost predicate NamedAndWeighed(c: Criterion) {
    && (exists k :: 0 <= k < |c.name| && !IsSpace(c.name[k]))
    && c.classification in {MustHave, NiceToHave} && c.weight >= 1
  }

  /** Which criteria can be scored against: a list of such ones that is not empty. */
  lemma ScorableCriteriaIff(criteria: seq<Criterion>)
    ensures ScorableCriteria(criteria) <==> criteria != [] && forall c :: c in criteria ==> NamedAndWeighed(c)
  {
    forall i | 0 <= i < |criteria|
      ensures criteria[i] in criteria && (ScorableCriterion(criteria[i]) <==> NamedAndWeighed(criteria[i]))
    {
    }
  }

  lemma IsSpaceIff(c: char)
    ensures IsSpace(c) <==> c in {' ', '\t', '\n', '\U{000B}', '\U{000C}', '\r', '\U{0085}', '\U{00A0}'}
  {
  }

  lemma {:induction false} TrimLeftCuts(s: string) returns (i: nat)
    ensures i <= |s| && TrimLeft(s) == s[i..] && (forall k :: 0 <= k < i ==> IsSpace(s[k]))
        && (i < |s| ==> !IsSpace(s[i]))
  {
    i := 0;
    if |s| > 0 && IsSpace(s[0]) {
      var rest := TrimLeftCuts(s[1..]);
      i := rest + 1;
      assert s[1..][rest..] == s[i..];
      assert forall k :: 1 <= k < i ==> s[k] == s[1..][k - 1];
    }
  }

  lemma {:induction false} TrimRightCuts(s: string) returns (j: nat)
    ensures j <= |s| && TrimRight(s) == s[..j] && (forall k :: j <= k < |s| ==> IsSpace(s[k]))
    ensures j > 0 ==> !IsSpace(s[j - 1])
  {
    j := |s|;
    if |s| > 0 && IsSpace(s[|s| - 1]) {
      j := TrimRightCuts(s[..|s| - 1]);
      assert s[..|s| - 1][..j] == s[..j];
    }
  }

  /** Trimming takes the spaces at both ends, all of them, and nothing else. */
  lemma TrimSpaceCuts(s: string) returns (i: nat, j: nat)
    ensures i <= j <= |s| && TrimSpace(s) == s[i..j]
    ensures forall k :: 0 <= k < i || j <= k < |s| ==> IsSpace(s[k])
    ensures i < j ==> !IsSpace(s[i]) && !IsSpace(s[j - 1])
  {
    i := TrimLeftCuts(s);
    var n := TrimRightCuts(s[i..]);
    j := i + n;
    assert s[i..][..n] == s[i..j];
    assert forall k :: j <= k < |s| ==> s[k] == s[i..][k - i];
  }

  method ValidateCriteria(criteria: seq<Criterion>) returns (ok: bool)
    ensures ok <==> ScorableCriteria(criteria)
  {
    if |criteria| == 0 {
      return false;
    }
    for i := 0 to |criteria|
      invariant forall k :: 0 <= k < i ==> ScorableCriterion(criteria[k])
    {
      TrimSpaceIs(criteria[i].name);
      if TrimSpace(criteria[i].name) == "" {
        return false;
      }
      if criteria[i].classification.Unlisted? || criteria[i].weight <= 0 {
        return false;
      }
    }
    return true;
  }

  /** What holds of an opening in every state it can reach; the table's CHECK constraints are part of it. */
  ghost predicate Sound(o: Opening) {
    && !Blank(o.title)
    && ScorableCriteria(o.criteria)
    && o.expectedTimeToFill > 0
    && (o.status == Closed <==> o.outcome.Some?)
    && (o.outcome.Some? ==> !o.outcome.value.OtherOutcome?)
  }

  class JobOpening {
    const id: string
    const title: string
    const description: string
    var criteria: seq<Criterion>
    const expectedTimeToFill: int
    var status: Status
    const openedAt: Time
    var outcome: Option<Outcome>

    ghost function Value(): Opening
      reads this
    {
      Opening(id, title, description, criteria, expectedTimeToFill, status, openedAt, outcome)
    }

    constructor (o: Opening)
      ensures Value() == o
      ensures id == o.id && title == o.title && description == o.description && criteria == o.criteria
      ensures expectedTimeToFill == o.expectedTimeToFill && status == o.status && openedAt == o.openedAt
      ensures outcome == o.outcome
    {
      id, title, description, criteria := o.id, o.title, o.description, o.criteria;
      expectedTimeToFill, status, openedAt, outcome := o.expectedTimeToFill, o.status, o.openedAt, o.outcome;
    }

    /** Puts an open opening on hold. */
    method Pause() returns (r: Result<(), OpeningError>)
      modifies this`status
      ensures r.Ok? <==> old(status) == Open
      ensures Value() == if r.Ok? then old(Value()).(status := Paused) else old(Value())
    {
      if status != Open {
        return Err(InvalidTransition);
      }
      status := Paused;
      return Ok(());
    }

    /** Reopens a paused opening. */
    method Resume() returns (r: Result<(), OpeningError>)
      modifies this`status
      ensures r.Ok? <==> old(status) == Paused
      ensures Value() == if r.Ok? then old(Value()).(status := Open) else old(Value())
    {
      if status != Paused {
        return Err(InvalidTransition);
      }
      status := Open;
      return Ok(());
    }

    /** Ends the opening for good, recording why. */
    method Close(why: Outcome) returns (r: Result<(), OpeningError>)
      modifies this`status, this`outcome
      ensures r.Ok? <==> old(status) != Closed && !why.OtherOutcome?
      ensures r.Err? ==> r.error == if old(status) == Closed then InvalidTransition else InvalidJobOpening
      ensures Value() == if r.Ok? then old(Value()).(status := Closed, outcome := Some(why)) else old(Value())
      ensures old(Sound(Value())) ==> Sound(Value())
    {
      if status == Closed {
        return Err(InvalidTransition);
      }
      if why.OtherOutcome? {
        return Err(InvalidJobOpening);
      }
      status, outcome := Closed, Some(why);
      return Ok(());
    }

    /** Replaces the criteria of an opening that is not closed; a refused revision changes nothing. */
    method ReviseCriteria(revised: seq<Criterion>) returns (r: Result<(), OpeningError>)
      modifies this`criteria
      ensures r.Ok? <==> status != Closed && ScorableCriteria(revised)
      ensures r.Err? ==> r.error == if status == Closed then InvalidTransition else InvalidJobOpening
      ensures Value() == if r.Ok? then old(Value()).(criteria := revised) else old(Value())
      ensures old(Sound(Value())) ==> Sound(Value())
    {
      if status == Closed {
        return Err(InvalidTransition);
      }
      var valid := ValidateCriteria(revised);
      if !valid {
        return Err(InvalidJobOpening);
      }
      criteria := revised;
      return Ok(());
    }
  }

  /** Creates a confirmed opening in the open state. */
  method NewJobOpening(id: string, draft: Draft, openedAt: Time) returns (r: Result<JobOpening, OpeningError>)
    ensures r.Ok? <==> !Blank(draft.title) && ScorableCriteria(draft.criteria) && draft.expectedTimeToFill > 0
    ensures r.Ok? ==>
      && fresh(r.value)
      && Sound(r.value.Value())
      && r.value.Value() == Opening(id, draft.title, draft.description, draft.criteria,
                                    draft.expectedTimeToFill, Open, openedAt, None)
  {
    TrimSpaceIs(draft.title);
    if TrimSpace(draft.title) == "" {
      return Err(InvalidJobOpening);
    }
    var valid := ValidateCriteria(draft.criteria);
    if !valid {
      return Err(InvalidJobOpening);
    }
    if draft.expectedTimeToFill <= 0 {
      return Err(InvalidJobOpening);
    }
    var o := new JobOpening(Opening(id, draft.title, draft.description, draft.criteria,
                                    draft.expectedTimeToFill, Open, openedAt, None));
    return Ok(o);
  }
}
