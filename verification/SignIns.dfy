/**
 * Whole runs of the Identity Service: what a sign-in's chain of refresh tokens keeps, whatever order
 * its transactions commit in. Setting a password and removing a member end sessions in two READ COMMITTED
 * statements, with other transactions in between; every other transaction locks what it reads and is one
 * step. A new token and a new session id differ from every one issued before.
 */
module SignIns {
  import opened Prelude
  import opened Identity

  /** A transaction that ends a member's sign-ins: SetPassword and ReplaceOwnPassword, or Remove. */
  datatype Change =
    | SetPassword(id: string, hash: string, temporary: bool, at: Time, reason: string)
    | Remove(id: string, at: Time)

  datatype Op =
    | StartSession(sessionId: string, memberId: string, endsAt: Time, token: string, now: Time)
    | Refresh(presented: string, now: Time, next: string, dbNow: Time)
    | ChangeRole(id: string, role: Role)
    | Create(id: string, email: string, hash: string, role: Role)
    | Begin(change: Change)      // up to the UPDATE that ends the sessions it sees
    | Drop(spared: set<string>)  // the DELETE, passing over tokens of sessions being refreshed meanwhile
    | Commit
    | Abort

  /** The unused tokens the DELETE took, and the sessions among theirs that the UPDATE had not seen. */
  datatype Dropped = Dropped(tokens: set<string>, early: set<string>)

  /** A change under way: the sessions its UPDATE ended, and the member's sessions started since. */
  datatype Pending = Pending(change: Change, locked: set<string>, since: set<string>, dropped: Option<Dropped>)

  /**
   * The committed store, the sign-in every token ever issued descends from, and the change under way: the
   * membership lock allows one.
   */
  datatype Run = Run(db: Db, issued: map<string, string>, pending: Option<Pending>)

  const EMPTY := Run(Db(map[], map[], map[]), map[], None)

  /** Sessions whose row, or whose unused token's row, the change under way has locked. */
  function Locked(r: Run): set<string> {
    if r.pending == None then {} else LockedBy(r.pending.value)
  }

  function LockedBy(p: Pending): set<string> {
    p.locked + if p.dropped.Some? then p.dropped.value.early else {}
  }

  /** New ids are new, and no row the transaction has to write is locked. */
  predicate Enabled(r: Run, op: Op) {
    match op
    case StartSession(sessionId, _, _, token, now) =>
      && token !in r.issued && sessionId !in r.issued.Values
      && forall s :: s in Locked(r) && s in r.db.sessions ==> !(r.db.sessions[s].endsAt < now - DAY)
    case Refresh(presented, _, next, _) =>
      next !in r.issued && (presented in r.db.tokens ==> r.db.tokens[presented].sessionId !in Locked(r))
    case ChangeRole(_, _) => r.pending == None
    case Create(_, _, _, _) => true
    case Begin(_) => r.pending == None
    case Drop(spared) => r.pending.Some? && r.pending.value.dropped == None && spared <= r.pending.value.since
    case Commit => r.pending.Some? && r.pending.value.dropped.Some?
    case Abort => r.pending.Some?
  }

  function Kept(r: Result<Db, StoreError>, db: Db): Db {
    if r.Ok? then r.value else db
  }

  function Exchanged(db: Db, op: Op): Exchange
    requires op.Refresh?
  {
    Rotated(db, op.presented, op.now, op.next, op.dbNow)
  }

  /** The change as it goes with no other transaction in between. */
  function Alone(db: Db, change: Change): Result<Db, StoreError> {
    match change
    case SetPassword(id, hash, temporary, at, reason) => PasswordSet(db, id, hash, temporary, at, reason)
    case Remove(id, at) => MemberRemoved(db, id, at)
  }

  /** The member's row as the change leaves it. */
  function Changed(db: Db, change: Change): Db {
    if change.id !in db.members then db
    else
      var m := db.members[change.id];
      match change
      case SetPassword(id, hash, temporary, _, _) =>
        WithMember(db, id, m.(passwordHash := hash, temporaryPassword := temporary))
      case Remove(id, at) => WithMember(db, id, m.(removedAt := Some(at)))
  }

  function ReasonOf(change: Change): string {
    if change.SetPassword? then change.reason else "member removed"
  }

  function OpenSessionsOf(db: Db, memberId: string): set<string> {
    set s | s in SessionsOf(db, memberId) && db.sessions[s].revoked == None
  }

  function SessionsWith(db: Db, tokens: set<string>): set<string> {
    set t | t in tokens && t in db.tokens :: db.tokens[t].sessionId
  }

  /** What the DELETE takes: the unused tokens of the sessions its statement sees. */
  function DroppedBy(db: Db, p: Pending, spared: set<string>): Dropped {
    var tokens := UnusedTokens(db, SessionsOf(db, p.change.id) - spared);
    Dropped(tokens, SessionsWith(db, tokens) - p.locked)
  }

  function Committed(db: Db, p: Pending): Db
    requires p.dropped.Some?
  {
    Without(SessionsEnded(Changed(db, p.change), p.locked, p.change.at, ReasonOf(p.change)), p.dropped.value.tokens)
  }

  /** A session the change under way has not seen, if it is the same member's. */
  function Noticed(pending: Option<Pending>, sessionId: string, memberId: string): Option<Pending> {
    if pending.Some? && pending.value.change.id == memberId
      then Some(pending.value.(since := pending.value.since + {sessionId})) else pending
  }

  function Step(r: Run, op: Op): Run {
    match op
    case StartSession(sessionId, memberId, endsAt, token, now) =>
      var started := Started(r.db, sessionId, memberId, endsAt, token, now);
      if started.Err? then r
      else Run(started.value, r.issued[token := sessionId], Noticed(r.pending, sessionId, memberId))
    case Refresh(presented, _, next, _) =>
      var e := Exchanged(r.db, op);
      if e.answer.Ok? then r.(db := e.db, issued := r.issued[next := r.db.tokens[presented].sessionId])
          else r.(db := e.db)
    case ChangeRole(id, role) => r.(db := Kept(RoleChanged(r.db, id, role), r.db))
    case Create(id, email, hash, role) => r.(db := Kept(Created(r.db, id, email, hash, role), r.db))
    case Begin(change) =>
      if Alone(r.db, change).Err? then r
      else r.(pending := Some(Pending(change, OpenSessionsOf(r.db, change.id), {}, None)))
    case Drop(spared) =>
      if r.pending == None then r
      else r.(pending := Some(r.pending.value.(dropped := Some(DroppedBy(r.db, r.pending.value, spared)))))
    case Commit =>
      if r.pending == None || r.pending.value.dropped == None then r
      else Run(Committed(r.db, r.pending.value), r.issued, None)
    case Abort => r.(pending := None)
  }

  predicate CanRun(r: Run, ops: seq<Op>)
    decreases |ops|
  {
    ops != [] ==> Enabled(r, ops[0]) && CanRun(Step(r, ops[0]), ops[1..])
  }

  function After(r: Run, ops: seq<Op>): Run
    decreases |ops|
  {
    if ops == [] then r else After(Step(r, ops[0]), ops[1..])
  }

  /** The i-th transaction of a run hands out a new token for this one. */
  predicate Exchanges(r: Run, ops: seq<Op>, i: nat, token: string)
    requires i < |ops|
  {
    && ops[i].Refresh? && ops[i].presented == token
    && Exchanged(After(r, ops[..i]).db, ops[i]).answer.Ok?
  }

  // ---------- The chain ----------

  function Unused(db: Db, s: string): set<string> {
    UnusedTokens(db, {s})
  }

  /** A revoked session has no token left to exchange, an open one at most one. */
  predicate Linear(db: Db, s: string)
    requires s in db.sessions
  {
    Unused(db, s) == {} || (db.sessions[s].revoked == None && exists t :: t in db.tokens && Unused(db, s) == {t})
  }

  /** An open session that has no token to go on with. */
  predicate Stranded(db: Db, s: string) {
    s in db.sessions && db.sessions[s].revoked == None && Unused(db, s) == {}
  }

  predicate RowsResolve(db: Db) {
    && (forall t :: t in db.tokens ==> db.tokens[t].sessionId in db.sessions)
    && (forall s :: s in db.sessions ==> db.sessions[s].memberId in db.members)
  }

  predicate AllLinear(db: Db) {
    RowsResolve(db) && forall s :: s in db.sessions ==> Linear(db, s)
  }

  predicate Recorded(r: Run) {
    && (forall t :: t in r.db.tokens ==> t in r.issued && r.issued[t] == r.db.tokens[t].sessionId)
    && r.db.sessions.Keys <= r.issued.Values
  }

  /**
   * What the change under way has locked is as it found it: the member's sessions its UPDATE saw are
   * open, the open ones it did not see are known, and its DELETE took all they have.
   */
  predicate PendingOk(db: Db, issued: set<string>, p: Pending) {
    && p.change.id in db.members
    && p.locked <= OpenSessionsOf(db, p.change.id) <= p.locked + p.since
    && p.locked !! p.since && p.locked <= issued && p.since <= issued
    && (p.dropped.Some? ==>
          var d := p.dropped.value;
          && d.early <= p.since && d.tokens == UnusedTokens(db, LockedBy(p))
          && d.early == SessionsWith(db, d.tokens) - p.locked)
  }

  predicate Chained(r: Run) {
    && AllLinear(r.db) && Recorded(r)
    && (r.pending.Some? ==> PendingOk(r.db, r.issued.Values, r.pending.value))
  }

  /** A session whose row and unused tokens a transaction left alone stays as linear as it was. */
  lemma UntouchedStaysLinear(db: Db, out: Db, s: string)
    requires s in db.sessions && s in out.sessions && db.sessions[s].revoked == out.sessions[s].revoked
    requires Linear(db, s)
    requires forall t :: UnusedOn(db, t, {s}) <==> UnusedOn(out, t, {s})
    ensures Linear(out, s)
  {
    assert Unused(out, s) == Unused(db, s);
    if Unused(db, s) != {} {
      var t :| t in db.tokens && Unused(db, s) == {t};
      assert t in Unused(out, s);
    }
  }

  lemma OneTokenIsLinear(db: Db, s: string, token: string)
    requires s in db.sessions && db.sessions[s].revoked == None
    requires forall t :: UnusedOn(db, t, {s}) <==> t == token
    ensures Linear(db, s)
  {
    assert UnusedOn(db, token, {s});
    assert Unused(db, s) == {token};
  }

  lemma RevokingKeepsChains(db: Db, ids: set<string>, at: Time, reason: string)
    requires AllLinear(db)
    ensures AllLinear(Revoked(db, ids, at, reason))
  {
    var out := Revoked(db, ids, at, reason);
    forall s | s in out.sessions ensures Linear(out, s) {
      if s in ids {
        assert Unused(out, s) == {};
      } else {
        UntouchedStaysLinear(db, out, s);
      }
    }
  }

  lemma SweepingKeepsChains(db: Db, now: Time)
    requires AllLinear(db)
    ensures AllLinear(Swept(db, now))
  {
    var out := Swept(db, now);
    forall s | s in out.sessions ensures Linear(out, s) {
      UntouchedStaysLinear(db, out, s);
    }
  }

  lemma OpeningKeepsChains(db: Db, sid: string, session: Session, token: string)
    requires AllLinear(db) && sid !in db.sessions && token !in db.tokens
    requires session.memberId in db.members && session.revoked == None
    ensures AllLinear(db.(sessions := db.sessions[sid := session], tokens := db.tokens[token := Token(sid, None)]))
  {
    var out := db.(sessions := db.sessions[sid := session], tokens := db.tokens[token := Token(sid, None)]);
    forall s | s in out.sessions ensures Linear(out, s) {
      if s == sid {
        OneTokenIsLinear(out, s, token);
      } else {
        UntouchedStaysLinear(db, out, s);
      }
    }
  }

  lemma ExchangingKeepsChains(db: Db, presented: string, next: string, now: Time)
    requires AllLinear(db) && next !in db.tokens
    requires presented in db.tokens && db.tokens[presented].usedAt == None
    ensures
      var t := db.tokens[presented];
      AllLinear(db.(tokens := db.tokens[presented := t.(usedAt := Some(now))][next := Token(t.sessionId, None)]))
  {
    var t := db.tokens[presented];
    var out := db.(tokens := db.tokens[presented := t.(usedAt := Some(now))][next := Token(t.sessionId, None)]);
    forall s | s in out.sessions ensures Linear(out, s) {
      if s == t.sessionId {
        assert Linear(db, s) && presented in Unused(db, s);
        assert Unused(db, s) == {presented};
        forall u | UnusedOn(db, u, {s}) ensures u == presented {
          assert u in Unused(db, s);
        }
        assert forall u :: UnusedOn(out, u, {s}) && u != next ==> UnusedOn(db, u, {s}) && u != presented;
        assert UnusedOn(out, next, {s});
        OneTokenIsLinear(out, s, next);
      } else {
        UntouchedStaysLinear(db, out, s);
      }
    }
  }

  /** A change commits: what its UPDATE saw is revoked, what only its DELETE saw is stranded. */
  lemma CommittingKeepsChains(db: Db, issued: set<string>, p: Pending)
    requires AllLinear(db) && PendingOk(db, issued, p) && p.dropped.Some?
    ensures AllLinear(Committed(db, p))
  {
    var out, d := Committed(db, p), p.dropped.value;
    assert forall t :: t in d.tokens <==> UnusedOn(db, t, p.locked + d.early);
    forall s | s in out.sessions ensures Linear(out, s) {
      if s in p.locked || s in d.early {
        assert Unused(out, s) == {};
      } else {
        UntouchedStaysLinear(db, out, s);
      }
    }
  }

  lemma IssuingOneMore(issued: map<string, string>, token: string, s: string)
    requires token !in issued
    ensures issued[token := s].Values == issued.Values + {s}
  {
    var out := issued[token := s];
    assert out[token] == s;
    forall v | v in issued.Values
      ensures v in out.Values
    {
      var t :| t in issued && issued[t] == v;
      assert out[t] == v;
    }
  }

  // ---------- The change under way ----------

  /** A transaction that leaves the locked rows alone leaves what the change will commit alone. */
  lemma PendingStays(db: Db, out: Db, issued: set<string>, more: set<string>, p: Pending)
    requires PendingOk(db, issued, p) && issued <= more && p.change.id in out.members
    requires p.locked <= OpenSessionsOf(out, p.change.id) <= OpenSessionsOf(db, p.change.id)
    requires forall t :: UnusedOn(out, t, LockedBy(p)) <==> UnusedOn(db, t, LockedBy(p))
    requires forall t :: UnusedOn(db, t, LockedBy(p)) && t in out.tokens ==> out.tokens[t] == db.tokens[t]
    ensures PendingOk(out, more, p)
  {
    assert UnusedTokens(out, LockedBy(p)) == UnusedTokens(db, LockedBy(p));
    if p.dropped.Some? {
      SameSessions(db, out, p.dropped.value.tokens);
    }
  }

  lemma SameSessions(db: Db, out: Db, tokens: set<string>)
    requires forall t :: t in tokens ==> t in db.tokens && t in out.tokens && out.tokens[t] == db.tokens[t]
    ensures SessionsWith(out, tokens) == SessionsWith(db, tokens)
  {
  }

  lemma SweepingKeepsPending(db: Db, issued: set<string>, p: Pending, now: Time)
    requires RowsResolve(db) && PendingOk(db, issued, p)
    requires forall s :: s in LockedBy(p) && s in db.sessions ==> !(db.sessions[s].endsAt < now - DAY)
    ensures PendingOk(Swept(db, now), issued, p)
  {
    PendingStays(db, Swept(db, now), issued, issued, p);
  }

  lemma OpeningKeepsPending(db: Db, issued: set<string>, p: Pending, sid: string, session: Session, token: string)
    requires PendingOk(db, issued, p) && sid !in issued && sid !in db.sessions && token !in db.tokens
    ensures
      var out := db.(sessions := db.sessions[sid := session], tokens := db.tokens[token := Token(sid, None)]);
      PendingOk(out, issued + {sid}, Noticed(Some(p), sid, session.memberId).value)
  {
    var out := db.(sessions := db.sessions[sid := session], tokens := db.tokens[token := Token(sid, None)]);
    assert sid !in LockedBy(p);
    assert UnusedTokens(out, LockedBy(p)) == UnusedTokens(db, LockedBy(p));
    if p.dropped.Some? {
      SameSessions(db, out, p.dropped.value.tokens);
    }
  }

  lemma ExchangingKeepsPending(db: Db, issued: set<string>, p: Pending, presented: string, next: string, now: Time)
    requires PendingOk(db, issued, p) && presented in db.tokens && next !in db.tokens
    requires db.tokens[presented].sessionId !in LockedBy(p)
    ensures
      var t := db.tokens[presented];
      PendingOk(db.(tokens := db.tokens[presented := t.(usedAt := Some(now))][next := Token(t.sessionId, None)]),
          issued, p)
  {
    var t := db.tokens[presented];
    var out := db.(tokens := db.tokens[presented := t.(usedAt := Some(now))][next := Token(t.sessionId, None)]);
    PendingStays(db, out, issued, issued, p);
  }

  lemma RevokingKeepsPending(db: Db, issued: set<string>, p: Pending, sid: string, at: Time, reason: string)
    requires PendingOk(db, issued, p) && sid !in LockedBy(p)
    ensures PendingOk(Revoked(db, {sid}, at, reason), issued, p)
  {
    PendingStays(db, Revoked(db, {sid}, at, reason), issued, issued, p);
  }

  /** The DELETE takes exactly what the sessions it locks have left. */
  lemma DroppingKeepsPending(db: Db, issued: set<string>, p: Pending, spared: set<string>)
    requires AllLinear(db) && PendingOk(db, issued, p) && p.dropped == None && spared <= p.since
    ensures PendingOk(db, issued, p.(dropped := Some(DroppedBy(db, p, spared))))
  {
    var d := DroppedBy(db, p, spared);
    forall t | t in d.tokens
      ensures db.tokens[t].sessionId in OpenSessionsOf(db, p.change.id) && UnusedOn(db, t, p.locked + d.early)
    {
      var s := db.tokens[t].sessionId;
      assert Linear(db, s) && t in Unused(db, s);
      assert s in SessionsWith(db, d.tokens);
    }
    assert d.early <= p.since;
    forall t | UnusedOn(db, t, p.locked + d.early)
      ensures t in d.tokens
    {
      assert db.tokens[t].sessionId in SessionsOf(db, p.change.id) - spared;
    }
    assert d.tokens == UnusedTokens(db, p.locked + d.early);
  }

  // ---------- Every step keeps the chains ----------

  lemma StartingKeepsChains(r: Run, op: Op)
    requires Chained(r) && Enabled(r, op) && op.StartSession?
    requires Started(r.db, op.sessionId, op.memberId, op.endsAt, op.token, op.now).Ok?
    ensures Chained(Step(r, op))
  {
    var swept, session := Swept(r.db, op.now), Session(op.memberId, op.endsAt, None);
    SweepingKeepsChains(r.db, op.now);
    IssuingOneMore(r.issued, op.token, op.sessionId);
    OpeningKeepsChains(swept, op.sessionId, session, op.token);
    if r.pending.Some? {
      SweepingKeepsPending(r.db, r.issued.Values, r.pending.value, op.now);
      OpeningKeepsPending(swept, r.issued.Values, r.pending.value, op.sessionId, session, op.token);
    }
    hide AllLinear, Linear, PendingOk;
  }

  lemma RefreshingKeepsChains(r: Run, op: Op)
    requires Chained(r) && Enabled(r, op) && op.Refresh? && Exchanged(r.db, op).answer.Ok?
    ensures Chained(Step(r, op))
  {
    var s := r.db.tokens[op.presented].sessionId;
    IssuingOneMore(r.issued, op.next, s);
    assert r.issued.Values + {s} == r.issued.Values;
    ExchangingKeepsChains(r.db, op.presented, op.next, op.now);
    if r.pending.Some? {
      ExchangingKeepsPending(r.db, r.issued.Values, r.pending.value, op.presented, op.next, op.now);
    }
    assert Recorded(Step(r, op)) by {
      hide AllLinear, PendingOk;
    }
    hide AllLinear, Linear, PendingOk, Recorded, Enabled;
  }

  /** A refused exchange commits nothing, or one session's revocation. */
  lemma RefusalCommits(db: Db, op: Op)
    requires op.Refresh? && Exchanged(db, op).answer.Err?
    ensures Exchanged(db, op).db == db ||
      (op.presented in db.tokens
       && exists reason :: Exchanged(db, op).db == Revoked(db, {db.tokens[op.presented].sessionId}, op.dbNow, reason))
  {
    hide Revoked;
  }

  lemma RefusingKeepsChains(r: Run, op: Op)
    requires Chained(r) && Enabled(r, op) && op.Refresh? && Exchanged(r.db, op).answer.Err?
    ensures Chained(Step(r, op))
  {
    RefusalCommits(r.db, op);
    if Exchanged(r.db, op).db != r.db {
      var sid := r.db.tokens[op.presented].sessionId;
      var reason :| Exchanged(r.db, op).db == Revoked(r.db, {sid}, op.dbNow, reason);
      RevokingKeepsChains(r.db, {sid}, op.dbNow, reason);
      if r.pending.Some? {
        RevokingKeepsPending(r.db, r.issued.Values, r.pending.value, sid, op.dbNow, reason);
      }
      RevokingKeepsRecorded(r, sid, op.dbNow, reason);
      hide Exchanged, Revoked, AllLinear, PendingOk, Recorded, Enabled;
    } else {
      hide Exchanged, Revoked, AllLinear, PendingOk, Recorded, Enabled;
    }
  }

  lemma RevokingKeepsRecorded(r: Run, sid: string, at: Time, reason: string)
    requires Recorded(r)
    ensures Recorded(r.(db := Revoked(r.db, {sid}, at, reason)))
  {
  }

  /** The members table plays no part in the chains. */
  lemma MembersDoNotMatter(r: Run, out: Run)
    requires Chained(r) && out == r.(db := r.db.(members := out.db.members)) && r.db.members.Keys <= out.db.members.Keys
    ensures Chained(out)
  {
    forall s | s in out.db.sessions ensures Linear(out.db, s) {
      UntouchedStaysLinear(r.db, out.db, s);
    }
    if r.pending.Some? {
      PendingStays(r.db, out.db, r.issued.Values, r.issued.Values, r.pending.value);
    }
  }

  lemma ChangesKeepChains(r: Run, op: Op)
    requires Chained(r) && Enabled(r, op) && !op.StartSession? && !op.Refresh?
    ensures Chained(Step(r, op))
  {
    match op
    case Drop(spared) => DroppingKeepsPending(r.db, r.issued.Values, r.pending.value, spared);
    case Commit => CommittingKeepsChains(r.db, r.issued.Values, r.pending.value);
    case ChangeRole(_, _) => MembersDoNotMatter(r, Step(r, op));
    case Create(_, _, _, _) => MembersDoNotMatter(r, Step(r, op));
    case _ =>
  }

  lemma StepKeepsChains(r: Run, op: Op)
    requires Chained(r) && Enabled(r, op)
    ensures Chained(Step(r, op))
  {
    if op.StartSession? {
      if Started(r.db, op.sessionId, op.memberId, op.endsAt, op.token, op.now).Ok? {
        StartingKeepsChains(r, op);
      }
    } else if op.Refresh? {
      if Exchanged(r.db, op).answer.Ok? {
        RefreshingKeepsChains(r, op);
      } else {
        RefusingKeepsChains(r, op);
      }
    } else {
      ChangesKeepChains(r, op);
    }
  }

  /** Every transaction keeps the chains linear, so every run does. */
  lemma {:induction false} ChainsStayLinear(r: Run, ops: seq<Op>)
    requires Chained(r) && CanRun(r, ops)
    ensures Chained(After(r, ops))
    decreases |ops|
  {
    if ops != [] {
      StepKeepsChains(r, ops[0]);
      ChainsStayLinear(Step(r, ops[0]), ops[1..]);
    }
  }

  lemma {:induction false} AfterSplits(r: Run, ops: seq<Op>, i: nat)
    requires i <= |ops| && CanRun(r, ops)
    ensures CanRun(r, ops[..i]) && CanRun(After(r, ops[..i]), ops[i..])
    ensures After(After(r, ops[..i]), ops[i..]) == After(r, ops)
    ensures i < |ops| ==>
        Enabled(After(r, ops[..i]), ops[i]) && After(r, ops[..i + 1]) == Step(After(r, ops[..i]), ops[i])
    decreases |ops|
  {
    if i == 0 {
      assert ops[..0] == [] && ops[0..] == ops;
      if ops != [] {
        assert ops[..1][1..] == [];
      }
    } else {
      AfterSplits(Step(r, ops[0]), ops[1..], i - 1);
      assert ops[..i][0] == ops[0] && ops[..i][1..] == ops[1..][..i - 1];
      assert ops[i..] == ops[1..][i - 1..];
      if i < |ops| {
        assert ops[..i + 1][1..] == ops[1..][..i];
      }
    }
  }

  // ---------- What no later transaction undoes ----------

  /** Already exchanged, revoked or swept: a token that was issued and is not waiting to be exchanged. */
  predicate Spent(r: Run, token: string) {
    token in r.issued && (token in r.db.tokens ==> r.db.tokens[token].usedAt.Some?)
  }

  /** A sign-in that was issued tokens and is revoked or swept. */
  predicate Over(r: Run, s: string) {
    s in r.issued.Values && (s in r.db.sessions ==> r.db.sessions[s].revoked.Some?)
  }

  predicate Gone(r: Run, id: string) {
    id in r.db.members && r.db.members[id].removedAt.Some?
  }

  /** The member and the hard cap written at sign-in, and the first revocation if one was written. */
  predicate Written(r: Run, s: string, memberId: string, endsAt: Time, revoked: Option<Revocation>) {
    && s in r.issued.Values
    && (s in r.db.sessions ==>
          var row := r.db.sessions[s];
          row.memberId == memberId && row.endsAt == endsAt && (revoked.Some? ==> row.revoked == revoked))
  }

  lemma IssuedGrows(r: Run, op: Op)
    requires Enabled(r, op)
    ensures forall t :: t in r.issued ==> t in Step(r, op).issued && Step(r, op).issued[t] == r.issued[t]
    ensures r.issued.Values <= Step(r, op).issued.Values
  {
    match op
    case StartSession(sessionId, _, _, token, _) => IssuingOneMore(r.issued, token, sessionId);
    case Refresh(presented, _, next, _) =>
      if Exchanged(r.db, op).answer.Ok? {
        IssuingOneMore(r.issued, next, r.db.tokens[presented].sessionId);
      }
    case _ =>
  }

  lemma StepKeepsTheSpent(r: Run, op: Op)
    requires Enabled(r, op)
    ensures forall t :: Spent(r, t) ==> Spent(Step(r, op), t)
    ensures forall s :: Over(r, s) ==> Over(Step(r, op), s)
  {
    IssuedGrows(r, op);
  }

  lemma StepKeepsTheRows(r: Run, op: Op)
    requires Enabled(r, op)
    ensures forall id :: Gone(r, id) ==> Gone(Step(r, op), id)
    ensures forall s, m, e, v :: Written(r, s, m, e, v) ==> Written(Step(r, op), s, m, e, v)
  {
    IssuedGrows(r, op);
  }

  lemma {:induction false} RunKeepsTheEnds(r: Run, ops: seq<Op>)
    requires CanRun(r, ops)
    ensures forall t :: Spent(r, t) ==> Spent(After(r, ops), t)
    ensures forall s :: Over(r, s) ==> Over(After(r, ops), s)
    ensures forall id :: Gone(r, id) ==> Gone(After(r, ops), id)
    ensures forall s, m, e, v :: Written(r, s, m, e, v) ==> Written(After(r, ops), s, m, e, v)
    ensures forall t :: t in r.issued ==> t in After(r, ops).issued && After(r, ops).issued[t] == r.issued[t]
    decreases |ops|
  {
    if ops != [] {
      StepKeepsTheSpent(r, ops[0]);
      StepKeepsTheRows(r, ops[0]);
      IssuedGrows(r, ops[0]);
      hide Step, Spent, Over, Gone, Written, Enabled;
      RunKeepsTheEnds(Step(r, ops[0]), ops[1..]);
    }
  }

  // ---------- How an open sign-in loses its token ----------

  /** A change commits whose UPDATE had not seen this sign-in, as it began later, and whose DELETE had. */
  predicate Strands(r: Run, op: Op, s: string) {
    && op.Commit? && r.pending.Some? && r.pending.value.dropped.Some?
    && s in r.pending.value.since && s in SessionsWith(r.db, r.pending.value.dropped.value.tokens)
  }

  lemma SameTokensStrandedAlike(db: Db, out: Db, s: string)
    requires s in db.sessions && s in out.sessions && db.sessions[s].revoked == out.sessions[s].revoked
    requires forall t :: UnusedOn(db, t, {s}) <==> UnusedOn(out, t, {s})
    ensures Stranded(out, s) <==> Stranded(db, s)
  {
    assert Unused(out, s) == Unused(db, s);
  }

  lemma StartingStrandsNone(r: Run, op: Op, s: string)
    requires Chained(r) && Enabled(r, op) && op.StartSession? && s in Step(r, op).db.sessions
    ensures Stranded(Step(r, op).db, s) <==> Stranded(r.db, s)
  {
    var out := Step(r, op).db;
    hide AllLinear;
    if s in r.db.sessions {
      assert forall t :: UnusedOn(r.db, t, {s}) <==> UnusedOn(out, t, {s});
      SameTokensStrandedAlike(r.db, out, s);
    } else {
      assert UnusedOn(out, op.token, {s}) && op.token in Unused(out, s);
    }
  }

  lemma RefreshingStrandsNone(r: Run, op: Op, s: string)
    requires Chained(r) && Enabled(r, op) && op.Refresh? && Exchanged(r.db, op).answer.Ok? && s in r.db.sessions
    ensures Stranded(Step(r, op).db, s) <==> Stranded(r.db, s)
  {
    var out := Step(r, op).db;
    if s == r.db.tokens[op.presented].sessionId {
      assert op.presented in Unused(r.db, s);
      assert UnusedOn(out, op.next, {s}) && op.next in Unused(out, s);
    } else {
      assert forall t :: UnusedOn(r.db, t, {s}) <==> UnusedOn(out, t, {s});
      SameTokensStrandedAlike(r.db, out, s);
    }
  }

  lemma RefusingStrandsNone(r: Run, op: Op, s: string)
    requires Chained(r) && Enabled(r, op) && op.Refresh? && Exchanged(r.db, op).answer.Err?
    requires s in r.db.sessions && s in Step(r, op).db.sessions && Step(r, op).db.sessions[s].revoked == None
    ensures Stranded(Step(r, op).db, s) <==> Stranded(r.db, s)
  {
    RefusalCommits(r.db, op);
    if Exchanged(r.db, op).db != r.db {
      var sid := r.db.tokens[op.presented].sessionId;
      var reason :| Exchanged(r.db, op).db == Revoked(r.db, {sid}, op.dbNow, reason);
      RevokingTouchesOne(r.db, sid, op.dbNow, reason);
      hide Revoked, Exchanged;
    }
  }

  lemma CommittingStrandsIff(r: Run, s: string)
    requires Chained(r) && Enabled(r, Commit) && s in r.db.sessions && Step(r, Commit).db.sessions[s].revoked == None
    ensures Stranded(Step(r, Commit).db, s) <==> Stranded(r.db, s) || Strands(r, Commit, s)
  {
    var p, d, out := r.pending.value, r.pending.value.dropped.value, Step(r, Commit).db;
    assert forall t :: t in d.tokens <==> UnusedOn(r.db, t, p.locked + d.early);
    assert s !in p.locked;
    if s in d.early {
      assert Unused(out, s) == {};
    } else {
      assert forall t :: UnusedOn(r.db, t, {s}) <==> UnusedOn(out, t, {s});
      SameTokensStrandedAlike(r.db, out, s);
    }
  }

  /**
   * What leaves an open sign-in without a token: it had none before, or a change of its member's commits
   * whose UPDATE had not seen it and whose DELETE had. No other transaction does.
   */
  lemma StrandedIff(r: Run, op: Op, s: string)
    requires Chained(r) && Enabled(r, op) && s in Step(r, op).db.sessions && Step(r, op).db.sessions[s].revoked == None
    ensures Stranded(Step(r, op).db, s) <==> Stranded(r.db, s) || Strands(r, op, s)
  {
    hide Chained, Stranded;
    match op
    case StartSession(_, _, _, _, _) => StartingStrandsNone(r, op, s);
    case Refresh(_, _, _, _) =>
      if Exchanged(r.db, op).answer.Ok? {
        RefreshingStrandsNone(r, op, s);
      } else {
        RefusingStrandsNone(r, op, s);
      }
    case Commit => CommittingStrandsIff(r, s);
    case _ => MembersStrandNone(r, Step(r, op), s);
  }

  lemma MembersStrandNone(r: Run, out: Run, s: string)
    requires out.db == r.db.(members := out.db.members)
    ensures Stranded(out.db, s) <==> Stranded(r.db, s)
  {
    assert forall t, ids :: UnusedOn(out.db, t, ids) <==> UnusedOn(r.db, t, ids);
    assert Unused(out.db, s) == Unused(r.db, s);
  }

  /** The i-th transaction of the run strands this sign-in. */
  predicate StrandsAt(r: Run, ops: seq<Op>, i: nat, s: string)
    requires i < |ops|
  {
    Strands(After(r, ops[..i]), ops[i], s)
  }

  lemma StrandedByTheLast(ops: seq<Op>, n: nat, s: string)
    requires CanRun(EMPTY, ops) && n < |ops|
    requires s in After(EMPTY, ops[..n + 1]).db.sessions && After(EMPTY, ops[..n + 1]).db.sessions[s].revoked == None
    ensures
      var r := After(EMPTY, ops[..n]);
      && (Stranded(After(EMPTY, ops[..n + 1]).db, s) <==> Stranded(r.db, s) || StrandsAt(EMPTY, ops, n, s))
      && (s in r.db.sessions ==> r.db.sessions[s].revoked == None)
      && (s !in r.db.sessions ==> !Stranded(r.db, s) && forall i: nat :: i < n ==> !StrandsAt(EMPTY, ops, i, s))
  {
    AfterSplits(EMPTY, ops, n);
    ChainsStayLinear(EMPTY, ops[..n]);
    hide Chained, Enabled, Step, Stranded, Strands, After, CanRun;
    var r := After(EMPTY, ops[..n]);
    StrandedIff(r, ops[n], s);
    if s in r.db.sessions {
      StaysOpen(r, ops[n], s);
    } else {
      NewIsNotStranded(r, ops[n], s);
      forall i: nat | i < n ensures !StrandsAt(EMPTY, ops, i, s) {
        if StrandsAt(EMPTY, ops, i, s) {
          StrandedWasIssued(ops, i, n, s);
        }
      }
    }
  }

  /** Up to the n-th transaction, an open sign-in lacks a token exactly when one of them stranded it. */
  lemma {:induction false} StrandedInRun(ops: seq<Op>, n: nat, s: string)
    requires CanRun(EMPTY, ops) && n <= |ops|
    requires s in After(EMPTY, ops[..n]).db.sessions && After(EMPTY, ops[..n]).db.sessions[s].revoked == None
    ensures Stranded(After(EMPTY, ops[..n]).db, s) <==> exists i: nat :: i < n && StrandsAt(EMPTY, ops, i, s)
    decreases n
  {
    if n > 0 {
      hide *;
      StrandedByTheLast(ops, n - 1, s);
      if s in After(EMPTY, ops[..n - 1]).db.sessions {
        StrandedInRun(ops, n - 1, s);
      }
    }
  }

  lemma StaysOpen(r: Run, op: Op, s: string)
    requires Chained(r) && Enabled(r, op)
    requires s in r.db.sessions && s in Step(r, op).db.sessions && Step(r, op).db.sessions[s].revoked == None
    ensures r.db.sessions[s].revoked == None
  {
    hide AllLinear;
  }

  lemma NewIsNotStranded(r: Run, op: Op, s: string)
    requires Chained(r) && Enabled(r, op) && s !in r.db.sessions && s in Step(r, op).db.sessions
    ensures s !in r.issued.Values && !Strands(r, op, s) && !Stranded(r.db, s)
  {
    hide AllLinear;
  }

  lemma StrandedWasIssued(ops: seq<Op>, i: nat, n: nat, s: string)
    requires CanRun(EMPTY, ops) && i < n <= |ops| && StrandsAt(EMPTY, ops, i, s)
    ensures s in After(EMPTY, ops[..n]).issued.Values
  {
    AfterSplits(EMPTY, ops, i);
    ChainsStayLinear(EMPTY, ops[..i]);
    AfterJoins(EMPTY, ops, i, n);
    IssuedOnly(After(EMPTY, ops[..i]), ops[i..][..n - i]);
    hide After, CanRun, AllLinear;
  }

  lemma {:induction false} IssuedOnly(r: Run, ops: seq<Op>)
    requires CanRun(r, ops)
    ensures r.issued.Values <= After(r, ops).issued.Values
    decreases |ops|
  {
    hide Enabled, Step;
    if ops != [] {
      IssuedGrows(r, ops[0]);
      IssuedOnly(Step(r, ops[0]), ops[1..]);
    }
  }

  /**
   * From an empty store, whatever the run: a revoked session never has a token left to exchange, and an
   * open one has exactly one - unless some commit in the run came to it between its two statements, and
   * then none.
   */
  lemma EveryReachableChainIsLinear(ops: seq<Op>, s: string)
    requires CanRun(EMPTY, ops) && s in After(EMPTY, ops).db.sessions
    ensures
      var r := After(EMPTY, ops);
      && Chained(r)
      && (r.db.sessions[s].revoked.Some? ==> Unused(r.db, s) == {})
      && (r.db.sessions[s].revoked == None ==>
            |Unused(r.db, s)| == if exists i: nat :: i < |ops| && StrandsAt(EMPTY, ops, i, s) then 0 else 1)
  {
    ChainsStayLinear(EMPTY, ops);
    var r := After(EMPTY, ops);
    assert Linear(r.db, s);
    assert ops[..|ops|] == ops;
    if r.db.sessions[s].revoked == None {
      hide Linear, Chained, After, CanRun, StrandsAt;
      StrandedInRun(ops, |ops|, s);
      AtMostOne(r.db, s);
    }
  }

  lemma AtMostOne(db: Db, s: string)
    requires s in db.sessions && Linear(db, s)
    ensures |Unused(db, s)| <= 1
    ensures db.sessions[s].revoked == None ==> (|Unused(db, s)| == 0 <==> Stranded(db, s))
  {
  }

  /** A sign-in that none of its tokens can keep going. */
  predicate Dead(r: Run, s: string) {
    Over(r, s) || Stranded(r.db, s)
  }

  lemma DeadStays(r: Run, op: Op, s: string)
    requires Chained(r) && Enabled(r, op) && Dead(r, s)
    ensures Dead(Step(r, op), s)
  {
    IssuedGrows(r, op);
    StepKeepsTheSpent(r, op);
    if Stranded(r.db, s) && s in Step(r, op).db.sessions && Step(r, op).db.sessions[s].revoked == None {
      StrandedIff(r, op, s);
    }
    hide Step, AllLinear, Stranded, Enabled;
  }

  lemma {:induction false} DeadForGood(r: Run, ops: seq<Op>, s: string)
    requires Chained(r) && CanRun(r, ops) && Dead(r, s)
    ensures Dead(After(r, ops), s)
    decreases |ops|
  {
    hide Chained, Dead, Step, Enabled;
    if ops != [] {
      StepKeepsChains(r, ops[0]);
      DeadStays(r, ops[0], s);
      DeadForGood(Step(r, ops[0]), ops[1..], s);
    }
  }

  // ---------- What the chains promise ----------

  /**
   * A refresh is answered with a new token exactly when the presented one is the sign-in's current one, in time,
   * for an active member.
   */
  lemma RefreshSucceedsIff(r: Run, op: Op)
    requires Chained(r) && Enabled(r, op) && op.Refresh?
    ensures Exchanged(r.db, op).answer.Ok? <==>
              && op.presented in r.db.tokens && Unused(r.db, r.db.tokens[op.presented].sessionId) == {op.presented}
              && op.now < r.db.sessions[r.db.tokens[op.presented].sessionId].endsAt
              && !Gone(r, r.db.sessions[r.db.tokens[op.presented].sessionId].memberId)
  {
    if op.presented in r.db.tokens {
      var sid := r.db.tokens[op.presented].sessionId;
      assert Linear(r.db, sid);
      assert r.db.tokens[op.presented].usedAt == None <==> op.presented in Unused(r.db, sid);
    }
  }

  /** Over a whole run each token is exchanged successfully at most once. */
  lemma ExchangedAtMostOnce(r: Run, ops: seq<Op>, i: nat, j: nat, token: string)
    requires Chained(r) && CanRun(r, ops) && i < |ops| && j < |ops|
    requires Exchanges(r, ops, i, token) && Exchanges(r, ops, j, token)
    ensures i == j
  {
    if i < j {
      ExchangedOnceBefore(r, ops, i, j, token);
    } else if j < i {
      ExchangedOnceBefore(r, ops, j, i, token);
    }
  }

  lemma ExchangedOnceBefore(r: Run, ops: seq<Op>, i: nat, j: nat, token: string)
    requires Chained(r) && CanRun(r, ops) && i < j < |ops|
    requires Exchanges(r, ops, i, token)
    ensures !Exchanges(r, ops, j, token)
  {
    hide *;
    SpentOnceExchanged(r, ops, i, token);
    AfterJoins(r, ops, i + 1, j);
    RunKeepsTheEnds(After(r, ops[..i + 1]), ops[i + 1..][..j - i - 1]);
    SpentIsRefused(r, ops, j, token);
  }

  lemma SpentOnceExchanged(r: Run, ops: seq<Op>, i: nat, token: string)
    requires Chained(r) && CanRun(r, ops) && i < |ops| && Exchanges(r, ops, i, token)
    ensures Spent(After(r, ops[..i + 1]), token)
  {
    AfterSplits(r, ops, i);
    ChainsStayLinear(r, ops[..i]);
    hide After, CanRun, AllLinear;
  }

  lemma SpentIsRefused(r: Run, ops: seq<Op>, j: nat, token: string)
    requires j < |ops| && Spent(After(r, ops[..j]), token)
    ensures !Exchanges(r, ops, j, token)
  {
  }

  lemma AfterJoins(r: Run, ops: seq<Op>, i: nat, j: nat)
    requires i <= j <= |ops| && CanRun(r, ops)
    ensures After(r, ops[..j]) == After(After(r, ops[..i]), ops[i..][..j - i])
    ensures CanRun(After(r, ops[..i]), ops[i..][..j - i])
  {
    AfterSplits(r, ops, j);
    AfterSplits(r, ops[..j], i);
    assert ops[..j][..i] == ops[..i] && ops[..j][i..] == ops[i..][..j - i];
  }

  /** No token descended from a sign-in that is over, or stranded, is ever exchanged again. */
  lemma OverForGood(r: Run, ops: seq<Op>, i: nat, token: string, s: string)
    requires Chained(r) && CanRun(r, ops) && i < |ops|
    requires Dead(r, s) && Exchanges(r, ops, i, token)
    ensures token in After(r, ops[..i]).issued && After(r, ops[..i]).issued[token] != s
  {
    AfterSplits(r, ops, i);
    ChainsStayLinear(r, ops[..i]);
    DeadForGood(r, ops[..i], s);
    ExchangeIsOfALiveSignIn(After(r, ops[..i]), ops[i]);
    hide *;
    hide Exchanges;
  }

  lemma ExchangeIsOfALiveSignIn(r: Run, op: Op)
    requires Chained(r) && op.Refresh? && Exchanged(r.db, op).answer.Ok?
    ensures
      && op.presented in r.db.tokens && op.presented in r.issued
      && r.issued[op.presented] == r.db.tokens[op.presented].sessionId
      && !Dead(r, r.issued[op.presented])
  {
    var s := r.db.tokens[op.presented].sessionId;
    assert Linear(r.db, s) && op.presented in Unused(r.db, s);
  }

  /** Presenting a retired token whose session row still exists ends that sign-in for good, and nothing else. */
  lemma ReuseEndsTheSignIn(r: Run, op: Op)
    requires Chained(r) && Enabled(r, op) && op.Refresh?
    requires op.presented in r.db.tokens && r.db.tokens[op.presented].usedAt.Some?
    ensures
      var s := r.db.tokens[op.presented].sessionId;
      && Exchanged(r.db, op).answer == Err(TokenReused)
      && Chained(Step(r, op)) && Over(Step(r, op), s) && Unused(Step(r, op).db, s) == {}
      && Written(Step(r, op), s, r.db.sessions[s].memberId, r.db.sessions[s].endsAt, Step(r, op).db.sessions[s].revoked)
      && Step(r, op).db.sessions[s].revoked == (if r.db.sessions[s].revoked.Some? then r.db.sessions[s].revoked
                                                else Some(Revocation(op.dbNow, "refresh token reused")))
      && Step(r, op).db.members == r.db.members
      && (forall other :: other in r.db.sessions && other != s ==>
            other in Step(r, op).db.sessions && Step(r, op).db.sessions[other] == r.db.sessions[other]
            && Unused(Step(r, op).db, other) == Unused(r.db, other))
  {
    StepKeepsChains(r, op);
    var s, out := r.db.tokens[op.presented].sessionId, Step(r, op).db;
    assert Linear(out, s);
    assert r.db.sessions[s].memberId in r.db.members;
    RevokingTouchesOne(r.db, s, op.dbNow, "refresh token reused");
    hide AllLinear, Linear, Enabled, Revoked, Unused;
  }

  lemma RevokingTouchesOne(db: Db, s: string, at: Time, reason: string)
    ensures
      var out := Revoked(db, {s}, at, reason);
      && out.members == db.members && out.sessions.Keys == db.sessions.Keys
      && (s in db.sessions ==> out.sessions[s] == Ended(db.sessions[s], at, reason))
      && (forall other :: other in db.sessions && other != s ==>
            out.sessions[other] == db.sessions[other] && Unused(out, other) == Unused(db, other))
  {
    var out := Revoked(db, {s}, at, reason);
    forall other | other in db.sessions && other != s ensures Unused(out, other) == Unused(db, other) {
      assert forall t :: UnusedOn(db, t, {other}) <==> UnusedOn(out, t, {other});
    }
  }

  /** The first revocation's time and reason stay on the row for as long as the row exists. */
  lemma FirstRevocationStands(r: Run, ops: seq<Op>, s: string)
    requires Chained(r) && CanRun(r, ops) && s in r.db.sessions && r.db.sessions[s].revoked.Some?
    ensures s in After(r, ops).db.sessions ==> After(r, ops).db.sessions[s] == r.db.sessions[s]
  {
    var row := r.db.sessions[s];
    assert Written(r, s, row.memberId, row.endsAt, row.revoked);
    RunKeepsTheEnds(r, ops);
    assert Written(After(r, ops), s, row.memberId, row.endsAt, row.revoked);
  }

  /** A removed member never refreshes again, on sessions started before the removal or after it. */
  lemma RemovedMembersNeverRefresh(r: Run, ops: seq<Op>, i: nat, token: string, id: string)
    requires CanRun(r, ops) && i < |ops| && Gone(r, id) && Exchanges(r, ops, i, token)
    ensures Exchanged(After(r, ops[..i]).db, ops[i]).answer.value.memberId != id
  {
    AfterSplits(r, ops, i);
    RunKeepsTheEnds(r, ops[..i]);
    assert Gone(After(r, ops[..i]), id);
  }

  /**
   * What a change under way ends when it commits: of the member's sign-ins exactly those that were already
   * over or that its UPDATE saw. One started since is not ended; its token is kept unless the DELETE saw it.
   */
  lemma EndedAtCommitIff(r: Run, s: string)
    requires Chained(r) && Enabled(r, Commit) && s in r.db.sessions
        && r.db.sessions[s].memberId == r.pending.value.change.id
    ensures Chained(Step(r, Commit)) && s in Step(r, Commit).db.sessions
    ensures Over(Step(r, Commit), s) <==> Over(r, s) || s !in r.pending.value.since
    ensures s !in r.pending.value.dropped.value.early && s in r.pending.value.since ==>
      Unused(Step(r, Commit).db, s) == Unused(r.db, s)
    ensures r.pending.value.change.Remove? ==> Gone(Step(r, Commit), r.pending.value.change.id)
  {
    StepKeepsChains(r, Commit);
    var p, out := r.pending.value, Step(r, Commit);
    hide AllLinear;
    assert s in OpenSessionsOf(r.db, p.change.id) <==> r.db.sessions[s].revoked == None;
    if s !in p.dropped.value.early && s in p.since {
      assert forall t :: UnusedOn(r.db, t, {s}) <==> UnusedOn(out.db, t, {s});
    }
  }

  lemma EndingTheOpenEndsAll(db: Db, id: string, at: Time, reason: string)
    ensures SessionsEnded(db, OpenSessionsOf(db, id), at, reason) == SessionsEnded(db, SessionsOf(db, id), at, reason)
  {
  }

  lemma CommittedAlone(db: Db, p: Pending)
    requires Alone(db, p.change).Ok? && p.locked == OpenSessionsOf(db, p.change.id)
    requires p.dropped.Some? && p.dropped.value.tokens == UnusedTokens(db, SessionsOf(db, p.change.id))
    ensures Committed(db, p) == Alone(db, p.change).value
  {
    var id, changed := p.change.id, Changed(db, p.change);
    assert SessionsOf(changed, id) == SessionsOf(db, id) && OpenSessionsOf(changed, id) == OpenSessionsOf(db, id);
    EndingTheOpenEndsAll(changed, id, p.change.at, ReasonOf(p.change));
    assert UnusedTokens(changed, SessionsOf(db, id)) == UnusedTokens(db, SessionsOf(db, id));
    hide SessionsEnded, SessionsOf, OpenSessionsOf, UnusedTokens, AnotherAdmin;
  }

  /** With no other transaction in between, a change is the one transaction the store's method makes of it. */
  lemma AloneItIsAtomic(r: Run, change: Change)
    requires Chained(r) && r.pending == None && Alone(r.db, change).Ok?
    ensures CanRun(r, [Begin(change), Drop({}), Commit])
    ensures After(r, [Begin(change), Drop({}), Commit]) == r.(db := Alone(r.db, change).value)
  {
    var r1 := Step(r, Begin(change));
    var r2 := Step(r1, Drop({}));
    StepKeepsChains(r, Begin(change));
    StepKeepsChains(r1, Drop({}));
    var p := r2.pending.value;
    assert SessionsOf(r.db, change.id) - {} == SessionsOf(r.db, change.id);
    CommittedAlone(r.db, p);
    assert [Begin(change), Drop({}), Commit][1..] == [Drop({}), Commit] && [Drop({}), Commit][1..] == [Commit]
        && [Commit][1..] == [];
    hide Chained, Alone, Committed, DroppedBy, OpenSessionsOf;
  }

  /**
   * However often a sign-in is refreshed, each answer names its member and the cap fixed when it began, and comes
   * before it.
   */
  lemma TheCapIsFixedAtSignIn(r: Run, ops: seq<Op>, i: nat, token: string)
    requires Chained(r) && CanRun(r, ops) && 0 < i < |ops|
    requires ops[0].StartSession? && Exchanges(r, ops, i, token)
    requires Started(r.db, ops[0].sessionId, ops[0].memberId, ops[0].endsAt, ops[0].token, ops[0].now).Ok?
    requires token in After(r, ops[..i]).issued && After(r, ops[..i]).issued[token] == ops[0].sessionId
    ensures
      var answer := Exchanged(After(r, ops[..i]).db, ops[i]).answer.value;
      && answer.memberId == ops[0].memberId && answer.sessionEndsAt == ops[0].endsAt && ops[i].now < ops[0].endsAt
      && answer.memberId in After(r, ops[..i]).db.members
          && answer.role == After(r, ops[..i]).db.members[answer.memberId].role
  {
    var op, s := ops[0], Step(r, ops[0]);
    StepKeepsChains(r, op);
    assert s.issued[op.token] == op.sessionId;
    assert Written(s, op.sessionId, op.memberId, op.endsAt, None);
    AfterSplits(r, ops, 0);
    AfterSplits(r, ops, 1);
    AfterSplits(r, ops, i);
    AfterJoins(r, ops, 1, i);
    assert ops[..0] == [];
    var now := After(r, ops[..i]);
    RunKeepsTheEnds(s, ops[1..][..i - 1]);
    ChainsStayLinear(r, ops[..i]);
    hide After, CanRun, Step;
    TheAnswerIsTheRow(now, ops[i], op.sessionId, op.memberId, op.endsAt);
  }

  lemma TheAnswerIsTheRow(r: Run, op: Op, s: string, memberId: string, endsAt: Time)
    requires Chained(r) && op.Refresh? && Exchanged(r.db, op).answer.Ok? && Written(r, s, memberId, endsAt, None)
    requires op.presented in r.issued && r.issued[op.presented] == s
    ensures
      var answer := Exchanged(r.db, op).answer.value;
      && answer.memberId == memberId && answer.sessionEndsAt == endsAt && op.now < endsAt
      && memberId in r.db.members && answer.role == r.db.members[memberId].role
  {
  }

  // ---------- A sign-in that neither lasts nor ends ----------

  /** A change with a sign-in of the same member between its two statements. */
  function Interrupted(change: Change, start: Op): seq<Op> {
    [Begin(change), start, Drop({}), Commit]
  }

  /**
   * Whatever the store, and whatever the change: a sign-in of the member that commits between the two
   * statements is left open, and without the token it was answered with.
   */
  lemma AnInterruptingSignInIsStranded(r: Run, change: Change, start: Op)
    requires Chained(r) && r.pending == None && Alone(r.db, change).Ok?
    requires start.StartSession? && start.memberId == change.id
    requires start.token !in r.issued && start.sessionId !in r.issued.Values
    requires forall s :: s in OpenSessionsOf(r.db, change.id) ==> !(r.db.sessions[s].endsAt < start.now - DAY)
    ensures CanRun(r, Interrupted(change, start))
    ensures
      var end := After(r, Interrupted(change, start));
      Stranded(end.db, start.sessionId) && start.token !in end.db.tokens
  {
    assert Interrupted(change, start) == [Begin(change), start, Drop({}), Commit];
    hide *;
    var r1 := Beginning(r, change);
    var r2 := Noticing(r1, start);
    var r3 := Dropping(r2, start.sessionId, start.token);
    var end := Committing(r3, start.sessionId, start.token);
    RunOfFour(r, Begin(change), start, Drop({}), Commit);
  }

  lemma Beginning(r: Run, change: Change) returns (out: Run)
    requires Chained(r) && r.pending == None && Alone(r.db, change).Ok?
    ensures Enabled(r, Begin(change)) && out == Step(r, Begin(change)) && Chained(out)
    ensures forall s :: s in OpenSessionsOf(r.db, change.id) ==> s in r.db.sessions
    ensures out == r.(pending := Some(Pending(change, OpenSessionsOf(r.db, change.id), {}, None)))
  {
    out := Step(r, Begin(change));
    StepKeepsChains(r, Begin(change));
  }

  /** The sign-in commits while the change, past its UPDATE, has not noticed it. */
  lemma Noticing(r: Run, start: Op) returns (out: Run)
    requires Chained(r) && start.StartSession? && start.token !in r.issued && start.sessionId !in r.issued.Values
    requires r.pending.Some? && r.pending.value.change.id == start.memberId && r.pending.value.dropped == None
    requires forall s :: s in r.pending.value.locked && s in r.db.sessions ==>
        !(r.db.sessions[s].endsAt < start.now - DAY)
    ensures Enabled(r, start) && out == Step(r, start) && Chained(out)
    ensures out.pending == Some(r.pending.value.(since := r.pending.value.since + {start.sessionId}))
    ensures start.sessionId in out.db.sessions
        && out.db.sessions[start.sessionId] == Session(start.memberId, start.endsAt, None)
    ensures start.token in out.db.tokens && out.db.tokens[start.token] == Token(start.sessionId, None)
    ensures start.sessionId !in r.pending.value.locked
  {
    out := Step(r, start);
    StepKeepsChains(r, start);
    hide AllLinear;
  }

  lemma Dropping(r: Run, s: string, token: string) returns (out: Run)
    requires Chained(r) && r.pending.Some? && r.pending.value.dropped == None && s in r.pending.value.since
    requires s in r.db.sessions && r.db.sessions[s].memberId == r.pending.value.change.id
    requires token in r.db.tokens && r.db.tokens[token] == Token(s, None)
    ensures Enabled(r, Drop({})) && out == Step(r, Drop({})) && out.db == r.db && out.pending.Some?
    ensures Chained(out) && out.pending.value.dropped.Some? && s in out.pending.value.since
    ensures token in out.pending.value.dropped.value.tokens
  {
    var p := r.pending.value;
    out := Step(r, Drop({}));
    assert UnusedOn(r.db, token, SessionsOf(r.db, p.change.id) - {});
    StepKeepsChains(r, Drop({}));
  }

  lemma Committing(r: Run, s: string, token: string) returns (out: Run)
    requires Chained(r) && r.pending.Some? && r.pending.value.dropped.Some? && s in r.pending.value.since
    requires s in r.db.sessions && r.db.sessions[s].revoked == None
    requires token in r.db.tokens && r.db.tokens[token].sessionId == s && token in r.pending.value.dropped.value.tokens
    ensures Enabled(r, Commit) && out == Step(r, Commit)
    ensures Stranded(out.db, s) && token !in out.db.tokens
  {
    out := Step(r, Commit);
    assert s in SessionsWith(r.db, r.pending.value.dropped.value.tokens);
    assert s !in r.pending.value.locked && out.db.sessions[s] == r.db.sessions[s];
    CommittingStrandsIff(r, s);
  }

  lemma RunOfCons(r: Run, op: Op, rest: seq<Op>)
    requires Enabled(r, op) && CanRun(Step(r, op), rest)
    ensures CanRun(r, [op] + rest) && After(r, [op] + rest) == After(Step(r, op), rest)
  {
    assert ([op] + rest)[1..] == rest;
  }

  lemma RunOfFour(r: Run, a: Op, b: Op, c: Op, d: Op)
    requires Enabled(r, a) && Enabled(Step(r, a), b) && Enabled(Step(Step(r, a), b), c)
    requires Enabled(Step(Step(Step(r, a), b), c), d)
    ensures CanRun(r, [a, b, c, d]) && After(r, [a, b, c, d]) == Step(Step(Step(Step(r, a), b), c), d)
  {
    hide Enabled, Step;
    var r1, r2, r3 := Step(r, a), Step(Step(r, a), b), Step(Step(Step(r, a), b), c);
    RunOfCons(r3, d, []);
    RunOfCons(r2, c, [d]);
    RunOfCons(r1, b, [c, d]);
    RunOfCons(r, a, [b, c, d]);
    assert [a, b, c, d] == [a] + [b, c, d] && [b, c, d] == [b] + [c, d] && [c, d] == [c] + [d] && [d] == [d] + [];
  }

  /** It happens to the first member of an empty store. */
  lemma AStrandedSignInIsReachable(ops: seq<Op>)
    requires ops == [Create("m", "nok@acme.example", "old", Recruiter)] + Interrupted(
                      SetPassword("m", "new", true, 1, "password reset by an admin"), StartSession("s", "m", 2, "t", 1))
    ensures CanRun(EMPTY, ops)
    ensures Stranded(After(EMPTY, ops).db, "s")
  {
    var r := Step(EMPTY, ops[0]);
    StepKeepsChains(EMPTY, ops[0]);
    var change, start :=
        SetPassword("m", "new", true, 1, "password reset by an admin"), StartSession("s", "m", 2, "t", 1);
    AnInterruptingSignInIsStranded(r, change, start);
    assert ops[1..] == Interrupted(change, start);
  }
}
