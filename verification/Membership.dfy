/**
 * The last-admin rule, one SQL statement at a time: transactions that lock, read, count, write and
 * commit or abort, interleaved in every way PostgreSQL's READ COMMITTED allows, with members being
 * created in between without the lock.
 */
module Membership {
  import opened Prelude
  import opened Identity

  datatype Change =
    | ChangeRole(id: string, role: Role)
    | Remove(id: string, at: Time)
    | SetPassword(id: string, hash: string, temporary: bool)

  /** Where a transaction has got to; `row` is what it has read or written. */
  datatype Phase = Begun | Locked | Read(row: Member) | Checked(row: Member) | Wrote(row: Member)

  datatype Tx = Tx(change: Change, phase: Phase)

  /** The committed members, the open transactions, who holds the advisory lock, and the answers given. */
  datatype State = State(members: map<string, Member>, open: map<nat, Tx>, holder: Option<nat>,
                         answers: map<nat, Result<Member, StoreError>>)

  datatype Step =
    | Begin(t: nat, change: Change)
    | Lock(t: nat)
    | Look(t: nat)
    | Count(t: nat)
    | Write(t: nat)
    | Commit(t: nat)
    | Abort(t: nat)
    | Create(id: string, email: string, hash: string, role: Role)

  function Applied(m: Member, change: Change): Member {
    match change
    case ChangeRole(_, role) => m.(role := role)
    case Remove(_, at) => m.(removedAt := Some(at))
    case SetPassword(_, hash, temporary) => m.(passwordHash := hash, temporaryPassword := temporary)
  }

  /** Whether the change takes an admin away, and so has to count the others. */
  predicate NeedsAnother(m: Member, change: Change) {
    m.role == Admin && ((change.ChangeRole? && change.role != Admin) || change.Remove?)
  }

  predicate In(s: State, t: nat) {
    t in s.open
  }

  /** `locking` is whether the advisory lock is there; without it every transaction goes straight on. */
  predicate Enabled(s: State, step: Step, locking: bool) {
    match step
    case Begin(t, _) => t !in s.open && t !in s.answers
    case Lock(t) => In(s, t) && s.open[t].phase == Begun && (locking ==> s.holder == None)
    case Look(t) => In(s, t) && s.open[t].phase == Locked
    case Count(t) => In(s, t) && s.open[t].phase.Read?
    case Write(t) => In(s, t) && s.open[t].phase.Checked?
    case Commit(t) => In(s, t) && s.open[t].phase.Wrote?
    case Abort(t) => In(s, t)
    case Create(_, _, _, _) => true
  }

  function Moved(s: State, t: nat, phase: Phase): State
    requires t in s.open
  {
    s.(open := s.open[t := s.open[t].(phase := phase)])
  }

  /** The transaction is over, and its lock with it. */
  function Closed(s: State, t: nat): State {
    s.(open := s.open - {t}, holder := if s.holder == Some(t) then None else s.holder)
  }

  function Answered(s: State, t: nat, answer: Result<Member, StoreError>): State {
    Closed(s, t).(answers := s.answers[t := answer])
  }

  function Next(s: State, step: Step, locking: bool): State
    requires Enabled(s, step, locking)
  {
    match step
    case Begin(t, change) => s.(open := s.open[t := Tx(change, Begun)])
    case Lock(t) => Moved(s, t, Locked).(holder := if locking then Some(t) else s.holder)
    case Look(t) =>
      (match Active(Committed(s), s.open[t].change.id)
       case Ok(m) => Moved(s, t, Read(m))
       case Err(e) => Answered(s, t, Err(e)))
    case Count(t) =>
      var tx := s.open[t];
      if NeedsAnother(tx.phase.row, tx.change) && !AnotherAdmin(s.members, tx.change.id)
      then Answered(s, t, Err(LastAdmin))
      else Moved(s, t, Checked(tx.phase.row))
    case Write(t) => Moved(s, t, Wrote(Applied(s.open[t].phase.row, s.open[t].change)))
    case Commit(t) =>
      var tx := s.open[t];
      Answered(s, t, Ok(tx.phase.row)).(members := s.members[tx.change.id := tx.phase.row])
    case Abort(t) => Closed(s, t)
    case Create(id, email, hash, role) =>
      var made := Created(Committed(s), id, email, hash, role);
      if made.Ok? then s.(members := made.value.members) else s
  }

  function Committed(s: State): Db {
    Db(s.members, map[], map[])
  }

  predicate CanRun(s: State, steps: seq<Step>, locking: bool)
    decreases |steps|
  {
    steps != [] ==> Enabled(s, steps[0], locking) && CanRun(Next(s, steps[0], locking), steps[1..], locking)
  }

  function After(s: State, steps: seq<Step>, locking: bool): State
    requires CanRun(s, steps, locking)
    decreases |steps|
  {
    if steps == [] then s else After(Next(s, steps[0], locking), steps[1..], locking)
  }

  predicate HasAdmin(members: map<string, Member>) {
    exists j :: j in members && ActiveAdmin(members, j)
  }

  // ---------- With the lock ----------

  /** What an open transaction has seen is still what is committed. */
  predicate StillTrue(s: State, tx: Tx) {
    match tx.phase
    case Begun => true
    case Locked => true
    case Read(row) => Active(Committed(s), tx.change.id) == Ok(row)
    case Checked(row) => Active(Committed(s), tx.change.id) == Ok(row)
        && (NeedsAnother(row, tx.change) ==> AnotherAdmin(s.members, tx.change.id))
    case Wrote(row) =>
      var m := Active(Committed(s), tx.change.id);
      m.Ok? && row == Applied(m.value, tx.change)
          && (NeedsAnother(m.value, tx.change) ==> AnotherAdmin(s.members, tx.change.id))
  }

  predicate Inv(s: State) {
    && HasAdmin(s.members)
    && (forall t :: t in s.open && s.open[t].phase != Begun ==> s.holder == Some(t))
    && (forall t :: t in s.open ==> StillTrue(s, s.open[t]))
  }

  /** The same change as the one atomic transaction the store's contracts describe. */
  function AtOnce(db: Db, change: Change): Result<Db, StoreError> {
    match change
    case ChangeRole(id, role) => RoleChanged(db, id, role)
    case Remove(id, at) => MemberRemoved(db, id, at)
    case SetPassword(id, hash, temporary) => PasswordSet(db, id, hash, temporary, 0, "")
  }

  /**
   * A transaction that answers, answers what it would have as one atomic step at that very moment; one that does
   * not answer changes nothing.
   */
  lemma EveryAnswerIsAtomic(s: State, step: Step)
    requires Inv(s) && Enabled(s, step, true) && !step.Create?
    ensures
      var out := Next(s, step, true);
      if (step.Look? || step.Count? || step.Commit?) && step.t !in out.open then
        var atOnce := AtOnce(Committed(s), s.open[step.t].change);
        && step.t in out.answers
        && match atOnce {
             case Ok(db) => out.members == db.members && out.answers[step.t] == Ok(db.members[s.open[step.t].change.id])
             case Err(e) => out.members == s.members && out.answers[step.t] == Err(e)
           }
      else out.members == s.members && out.answers == s.answers
  {
  }

  lemma CreatingKeepsWhatWasSeen(s: State, step: Step)
    requires Inv(s) && step.Create?
    ensures Inv(Next(s, step, true))
  {
    var out := Next(s, step, true);
    var j :| j in s.members && ActiveAdmin(s.members, j);
    assert ActiveAdmin(out.members, j);
    forall t | t in out.open
      ensures StillTrue(out, out.open[t])
    {
      assert StillTrue(s, s.open[t]);
      var id := s.open[t].change.id;
      if AnotherAdmin(s.members, id) {
        var k :| k in s.members && k != id && ActiveAdmin(s.members, k);
        assert ActiveAdmin(out.members, k);
      }
    }
  }

  lemma CommittingKeepsAnAdmin(s: State, t: nat)
    requires Inv(s) && Enabled(s, Commit(t), true)
    ensures Inv(Next(s, Commit(t), true))
  {
    var out, tx := Next(s, Commit(t), true), s.open[t];
    var m := s.members[tx.change.id];
    var j :| j in s.members && ActiveAdmin(s.members, j);
    if NeedsAnother(m, tx.change) {
      var k :| k in s.members && k != tx.change.id && ActiveAdmin(s.members, k);
      assert ActiveAdmin(out.members, k);
    } else {
      assert ActiveAdmin(out.members, j);
    }
  }

  lemma NextKeepsInv(s: State, step: Step)
    requires Inv(s) && Enabled(s, step, true)
    ensures Inv(Next(s, step, true))
  {
    match step
    case Create(_, _, _, _) => CreatingKeepsWhatWasSeen(s, step);
    case Commit(t) => CommittingKeepsAnAdmin(s, t);
    case _ =>
  }

  /** From any state with an active admin and no transaction open, one remains whatever the interleaving. */
  lemma AnAdminAlwaysRemains(s: State, steps: seq<Step>)
    requires HasAdmin(s.members) && s.open == map[] && CanRun(s, steps, true)
    ensures HasAdmin(After(s, steps, true).members)
  {
    RunKeepsInv(s, steps);
  }

  lemma {:induction false} RunKeepsInv(s: State, steps: seq<Step>)
    requires Inv(s) && CanRun(s, steps, true)
    ensures Inv(After(s, steps, true))
    decreases |steps|
  {
    if steps != [] {
      NextKeepsInv(s, steps[0]);
      RunKeepsInv(Next(s, steps[0], true), steps[1..]);
    }
  }

  // ---------- Without it ----------

  const ANN := Member("ann@x", Admin, "", false, None)
  const BOB := Member("bob@x", Admin, "", false, None)
  const TWO_ADMINS := State(map["ann" := ANN, "bob" := BOB], map[], None, map[])

  /** Both admins' demotions open, at these points. */
  function Both(ann: Phase, bob: Phase): State {
    TWO_ADMINS.(open := map[0 := Tx(ChangeRole("ann", Recruiter), ann), 1 := Tx(ChangeRole("bob", Recruiter), bob)])
  }

  const BOTH_LOOK := [Lock(0), Lock(1), Look(0), Look(1)]
  const BOTH_WRITE := [Count(0), Count(1), Write(0), Write(1)]
  const BOTH_COMMIT := [Commit(0), Commit(1)]

  lemma {:induction false} RunsOn(s: State, first: seq<Step>, rest: seq<Step>, locking: bool)
    requires CanRun(s, first, locking) && CanRun(After(s, first, locking), rest, locking)
    ensures CanRun(s, first + rest, locking)
    ensures After(s, first + rest, locking) == After(After(s, first, locking), rest, locking)
    decreases |first|
  {
    if first == [] {
      assert first + rest == rest;
    } else {
      assert (first + rest)[1..] == first[1..] + rest;
      RunsOn(Next(s, first[0], locking), first[1..], rest, locking);
    }
  }

  lemma TwoSteps(s: State, a: Step, b: Step, locking: bool)
    requires Enabled(s, a, locking) && Enabled(Next(s, a, locking), b, locking)
    ensures CanRun(s, [a, b], locking) && After(s, [a, b], locking) == Next(Next(s, a, locking), b, locking)
  {
    hide Enabled, Next;
    var s1 := Next(s, a, locking);
    assert [a, b][1..] == [b] && [b][1..] == [];
    assert CanRun(s1, [b], locking) && After(s1, [b], locking) == Next(s1, b, locking);
  }

  lemma FourSteps(s: State, a: Step, b: Step, c: Step, d: Step, middle: State, last: State)
    requires Enabled(s, a, false) && Enabled(Next(s, a, false), b, false) && Next(Next(s, a, false), b, false) == middle
    requires Enabled(middle, c, false) && Enabled(Next(middle, c, false), d, false)
        && Next(Next(middle, c, false), d, false) == last
    ensures CanRun(s, [a, b, c, d], false) && After(s, [a, b, c, d], false) == last
  {
    TwoSteps(s, a, b, false);
    TwoSteps(middle, c, d, false);
    hide Enabled, Next, CanRun, After;
    RunsOn(s, [a, b], [c, d], false);
    assert [a, b] + [c, d] == [a, b, c, d];
  }

  lemma BothCanLook()
    ensures CanRun(Both(Begun, Begun), BOTH_LOOK, false)
        && After(Both(Begun, Begun), BOTH_LOOK, false) == Both(Read(ANN), Read(BOB))
  {
    assert Next(Both(Begun, Begun), Lock(0), false) == Both(Locked, Begun);
    assert Next(Both(Locked, Begun), Lock(1), false) == Both(Locked, Locked);
    assert Next(Both(Locked, Locked), Look(0), false) == Both(Read(ANN), Locked);
    assert Next(Both(Read(ANN), Locked), Look(1), false) == Both(Read(ANN), Read(BOB));
    FourSteps(Both(Begun, Begun), Lock(0), Lock(1), Look(0), Look(1), Both(Locked, Locked), Both(Read(ANN), Read(BOB)));
  }

  /** Each counts the other, who has not committed yet. */
  lemma BothCanWrite()
    ensures CanRun(Both(Read(ANN), Read(BOB)), BOTH_WRITE, false)
    ensures After(Both(Read(ANN), Read(BOB)), BOTH_WRITE, false)
        == Both(Wrote(ANN.(role := Recruiter)), Wrote(BOB.(role := Recruiter)))
  {
    assert AnotherAdmin(TWO_ADMINS.members, "ann") && AnotherAdmin(TWO_ADMINS.members, "bob") by {
      assert ActiveAdmin(TWO_ADMINS.members, "ann") && ActiveAdmin(TWO_ADMINS.members, "bob");
    }
    hide AnotherAdmin;
    var ann, bob := ANN.(role := Recruiter), BOB.(role := Recruiter);
    assert Next(Both(Read(ANN), Read(BOB)), Count(0), false) == Both(Checked(ANN), Read(BOB));
    assert Next(Both(Checked(ANN), Read(BOB)), Count(1), false) == Both(Checked(ANN), Checked(BOB));
    assert Next(Both(Checked(ANN), Checked(BOB)), Write(0), false) == Both(Wrote(ann), Checked(BOB));
    assert Next(Both(Wrote(ann), Checked(BOB)), Write(1), false) == Both(Wrote(ann), Wrote(bob));
    FourSteps(Both(Read(ANN), Read(BOB)), Count(0), Count(1), Write(0), Write(1), Both(Checked(ANN), Checked(BOB)),
        Both(Wrote(ann), Wrote(bob)));
  }

  lemma BothCanCommit()
    ensures
      var s := Both(Wrote(ANN.(role := Recruiter)), Wrote(BOB.(role := Recruiter)));
      CanRun(s, BOTH_COMMIT, false) && !HasAdmin(After(s, BOTH_COMMIT, false).members)
  {
    var ann, bob := ANN.(role := Recruiter), BOB.(role := Recruiter);
    var s := Both(Wrote(ann), Wrote(bob));
    var s1 := Next(s, Commit(0), false);
    assert s1.members == map["ann" := ann, "bob" := BOB]
        && s1.open == map[1 := Tx(ChangeRole("bob", Recruiter), Wrote(bob))];
    var s2 := Next(s1, Commit(1), false);
    assert s2.members == map["ann" := ann, "bob" := bob];
    TwoSteps(s, Commit(0), Commit(1), false);
  }

  /** The lock is what does it: without it two admins demoting each other both pass the check, and none is left. */
  lemma WithoutTheLockNoneMayRemain() returns (steps: seq<Step>)
    ensures HasAdmin(TWO_ADMINS.members) && TWO_ADMINS.open == map[]
    ensures CanRun(TWO_ADMINS, steps, false) && !HasAdmin(After(TWO_ADMINS, steps, false).members)
  {
    assert ActiveAdmin(TWO_ADMINS.members, "ann");
    var begin := [Begin(0, ChangeRole("ann", Recruiter)), Begin(1, ChangeRole("bob", Recruiter))];
    TwoSteps(TWO_ADMINS, begin[0], begin[1], false);
    assert After(TWO_ADMINS, begin, false) == Both(Begun, Begun);
    hide *;
    BothCanLook();
    BothCanWrite();
    BothCanCommit();
    RunsOn(Both(Read(ANN), Read(BOB)), BOTH_WRITE, BOTH_COMMIT, false);
    RunsOn(Both(Begun, Begun), BOTH_LOOK, BOTH_WRITE + BOTH_COMMIT, false);
    RunsOn(TWO_ADMINS, begin, BOTH_LOOK + (BOTH_WRITE + BOTH_COMMIT), false);
    steps := begin + (BOTH_LOOK + (BOTH_WRITE + BOTH_COMMIT));
  }
}
