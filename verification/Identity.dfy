/**
 * The Identity Service's store: members, sessions and refresh tokens, one transaction per operation as
 * it runs alone. A token stands for its hash, which is taken to be injective.
 */
module Identity {
  import opened Prelude

  type Time = int

  const DAY: Time := 86_400_000_000_000

  datatype Role = Admin | Recruiter

  datatype Member = Member(email: string, role: Role, passwordHash: string, temporaryPassword: bool,
      removedAt: Option<Time>)

  datatype Revocation = Revocation(at: Time, reason: string)

  datatype Session = Session(memberId: string, endsAt: Time, revoked: Option<Revocation>)

  datatype Token = Token(sessionId: string, usedAt: Option<Time>)

  datatype Db = Db(members: map<string, Member>, sessions: map<string, Session>, tokens: map<string, Token>)

  datatype StoreError =
    | NotFound | EmailTaken | Removed | LastAdmin
    | InvalidRefresh | SessionEnded | TokenReused
    | ConstraintViolated // a primary or foreign key: the transaction rolls back

  datatype Rotation = Rotation(memberId: string, role: Role, sessionEndsAt: Time)

  // ---------- What each transaction does ----------

  /** DELETE FROM sessions WHERE ends_at < now() - interval '1 day', and their tokens with them. */
  function Swept(db: Db, now: Time): Db {
    var sessions := map s | s in db.sessions && !(db.sessions[s].endsAt < now - DAY) :: db.sessions[s];
    var tokens := map t | t in db.tokens
      && (db.tokens[t].sessionId in db.sessions ==> db.tokens[t].sessionId in sessions) :: db.tokens[t];
    db.(sessions := sessions, tokens := tokens)
  }

  /** A token that could still be exchanged on one of these sessions. */
  predicate UnusedOn(db: Db, t: string, sessions: set<string>) {
    t in db.tokens && db.tokens[t].usedAt == None && db.tokens[t].sessionId in sessions
  }

  /** UPDATE sessions ... WHERE revoked_at IS NULL: the first revocation stands. */
  function Ended(s: Session, at: Time, reason: string): Session {
    if s.revoked == None then s.(revoked := Some(Revocation(at, reason))) else s
  }

  /** revokeMemberSessions' UPDATE, on the sessions its WHERE clause selects. */
  function SessionsEnded(db: Db, sessions: set<string>, at: Time, reason: string): Db {
    db.(sessions := map s | s in db.sessions ::
          if s in sessions then Ended(db.sessions[s], at, reason) else db.sessions[s])
  }

  /** What its DELETE selects. */
  function UnusedTokens(db: Db, sessions: set<string>): set<string> {
    set t | t in db.tokens && UnusedOn(db, t, sessions)
  }

  function Without(db: Db, tokens: set<string>): Db {
    db.(tokens := map t | t in db.tokens && t !in tokens :: db.tokens[t])
  }

  /** Ends the unrevoked ones among these sessions and throws away their unused tokens. */
  function Revoked(db: Db, sessions: set<string>, at: Time, reason: string): Db {
    Without(SessionsEnded(db, sessions, at, reason), UnusedTokens(db, sessions))
  }

  function SessionsOf(db: Db, memberId: string): set<string> {
    set s | s in db.sessions && db.sessions[s].memberId == memberId
  }

  /** StartSession: sweep, then one session and its first token. */
  function Started(db: Db, sessionId: string, memberId: string, endsAt: Time, token: string,
                   now: Time): Result<Db, StoreError> {
    var swept := Swept(db, now);
    if memberId !in db.members || sessionId in swept.sessions || token in swept.tokens then Err(ConstraintViolated)
    else Ok(swept.(sessions := swept.sessions[sessionId := Session(memberId, endsAt, None)],
                   tokens := swept.tokens[token := Token(sessionId, None)]))
  }

  datatype Exchange = Exchange(db: Db, answer: Result<Rotation, StoreError>)

  /** RotateRefreshToken: the refusals commit what they revoke. */
  function Rotated(db: Db, presented: string, now: Time, next: string, dbNow: Time): Exchange {
    if presented !in db.tokens || db.tokens[presented].sessionId !in db.sessions
       || db.sessions[db.tokens[presented].sessionId].memberId !in db.members then Exchange(db, Err(InvalidRefresh))
    else
      var t := db.tokens[presented];
      var s := db.sessions[t.sessionId];
      var m := db.members[s.memberId];
      if t.usedAt.Some? then Exchange(Revoked(db, {t.sessionId}, dbNow, "refresh token reused"), Err(TokenReused))
      else if s.revoked.Some? || s.endsAt <= now then Exchange(db, Err(SessionEnded))
      else if m.removedAt.Some? then Exchange(Revoked(db, {t.sessionId}, dbNow, "member removed"), Err(SessionEnded))
      else if next in db.tokens then Exchange(db, Err(ConstraintViolated))
      else Exchange(db.(tokens := db.tokens[presented := t.(usedAt := Some(now))][next := Token(t.sessionId, None)]),
                    Ok(Rotation(s.memberId, m.role, s.endsAt)))
  }

  /** lockActiveMember's answer. */
  function Active(db: Db, id: string): Result<Member, StoreError> {
    if id !in db.members then Err(NotFound)
    else if db.members[id].removedAt.Some? then Err(Removed)
    else Ok(db.members[id])
  }

  predicate ActiveAdmin(members: map<string, Member>, id: string) {
    id in members && members[id].role == Admin && members[id].removedAt == None
  }

  /** ensureAnotherAdmin. */
  predicate AnotherAdmin(members: map<string, Member>, id: string) {
    exists j :: j in members && j != id && ActiveAdmin(members, j)
  }

  function WithMember(db: Db, id: string, m: Member): Db {
    db.(members := db.members[id := m])
  }

  function RoleChanged(db: Db, id: string, role: Role): Result<Db, StoreError> {
    match Active(db, id)
    case Err(e) => Err(e)
    case Ok(m) =>
      if m.role == Admin && role != Admin && !AnotherAdmin(db.members, id) then Err(LastAdmin)
      else Ok(WithMember(db, id, m.(role := role)))
  }

  function PasswordSet(db: Db, id: string, hash: string, temporary: bool, at: Time,
                       reason: string): Result<Db, StoreError> {
    match Active(db, id)
    case Err(e) => Err(e)
    case Ok(m) =>
      var changed := WithMember(db, id, m.(passwordHash := hash, temporaryPassword := temporary));
      Ok(Revoked(changed, SessionsOf(db, id), at, reason))
  }

  function MemberRemoved(db: Db, id: string, at: Time): Result<Db, StoreError> {
    match Active(db, id)
    case Err(e) => Err(e)
    case Ok(m) =>
      if m.role == Admin && !AnotherAdmin(db.members, id) then Err(LastAdmin)
      else Ok(Revoked(WithMember(db, id, m.(removedAt := Some(at))), SessionsOf(db, id), at, "member removed"))
  }

  predicate EmailFree(members: map<string, Member>, email: string) {
    forall j :: j in members ==> members[j].email == email ==> members[j].removedAt.Some?
  }

  function Created(db: Db, id: string, email: string, hash: string, role: Role): Result<Db, StoreError> {
    if !EmailFree(db.members, email) || id in db.members then Err(EmailTaken) // any unique violation
    else Ok(WithMember(db, id, Member(email, role, hash, true, None)))
  }

  // ---------- What each transaction changes, row by row ----------

  /** Which sessions stay, which tokens stay with them, and what the new session is. */
  lemma StartedSays(db: Db, sessionId: string, memberId: string, endsAt: Time, token: string, now: Time)
    ensures
      var kept := set s | s in db.sessions && db.sessions[s].endsAt >= now - 86_400_000_000_000;
      match Started(db, sessionId, memberId, endsAt, token, now)
      case Err(_) =>
        || memberId !in db.members || sessionId in kept
        || (token in db.tokens && (db.tokens[token].sessionId in db.sessions ==> db.tokens[token].sessionId in kept))
      case Ok(out) =>
        && memberId in db.members && sessionId !in kept && out.members == db.members
        && out.sessions.Keys == kept + {sessionId}
        && (forall s :: s in kept ==> out.sessions[s] == db.sessions[s])
        && out.sessions[sessionId].memberId == memberId && out.sessions[sessionId].endsAt == endsAt
        && out.sessions[sessionId].revoked == None
        && token in out.tokens && out.tokens[token].sessionId == sessionId && out.tokens[token].usedAt == None
        && (forall t :: t in out.tokens && t != token <==>
              t in db.tokens && t != token
                  && (db.tokens[t].sessionId in db.sessions ==> db.tokens[t].sessionId in kept))
        && (forall t :: t in out.tokens && t != token ==> out.tokens[t] == db.tokens[t])
  {
  }

  /** Ending sessions marks the open ones and takes their unused tokens; everything else is left. */
  lemma RevokedSays(db: Db, sessions: set<string>, at: Time, reason: string)
    ensures
      var out := Revoked(db, sessions, at, reason);
      && out.members == db.members && out.sessions.Keys == db.sessions.Keys
      && (forall s :: s in db.sessions ==>
            && out.sessions[s].memberId == db.sessions[s].memberId && out.sessions[s].endsAt == db.sessions[s].endsAt
            && (s !in sessions || db.sessions[s].revoked.Some? ==> out.sessions[s].revoked == db.sessions[s].revoked)
            && (s in sessions && db.sessions[s].revoked == None ==>
                  && out.sessions[s].revoked.Some? && out.sessions[s].revoked.value.at == at
                  && out.sessions[s].revoked.value.reason == reason))
      && (forall t :: t in out.tokens <==>
            t in db.tokens && (db.tokens[t].sessionId !in sessions || db.tokens[t].usedAt.Some?))
      && (forall t :: t in out.tokens ==> out.tokens[t] == db.tokens[t])
  {
  }

  /** An exchange marks the presented token used and adds the next one to the same session: no other row changes. */
  lemma ExchangedSays(db: Db, presented: string, now: Time, next: string, dbNow: Time)
    requires Rotated(db, presented, now, next, dbNow).answer.Ok?
    ensures presented in db.tokens && db.tokens[presented].sessionId in db.sessions && presented != next
    ensures
      var out, answer := Rotated(db, presented, now, next, dbNow).db,
          Rotated(db, presented, now, next, dbNow).answer.value;
      var s := db.tokens[presented].sessionId;
      && out.members == db.members && out.sessions == db.sessions
      && out.tokens.Keys == db.tokens.Keys + {next} && next !in db.tokens
      && out.tokens[presented].sessionId == s && out.tokens[presented].usedAt == Some(now)
      && out.tokens[next].sessionId == s && out.tokens[next].usedAt == None
      && (forall t :: t in db.tokens && t != presented ==> out.tokens[t] == db.tokens[t])
      && answer.memberId == db.sessions[s].memberId && answer.sessionEndsAt == db.sessions[s].endsAt
      && answer.memberId in db.members && answer.role == db.members[answer.memberId].role
  {
  }

  /** Why a refresh is refused, in the order the reasons are looked at, and what the refusal still commits. */
  lemma RefusedSays(db: Db, presented: string, now: Time, next: string, dbNow: Time)
    requires presented in db.tokens && db.tokens[presented].sessionId in db.sessions
    requires db.sessions[db.tokens[presented].sessionId].memberId in db.members
    ensures
      var e, t := Rotated(db, presented, now, next, dbNow), db.tokens[presented];
      var s := db.sessions[t.sessionId];
      if t.usedAt.Some? then
        e.answer == Err(TokenReused) && e.db == Revoked(db, {t.sessionId}, dbNow, "refresh token reused")
      else if s.revoked.Some? || now >= s.endsAt then e.answer == Err(SessionEnded) && e.db == db
      else if db.members[s.memberId].removedAt.Some? then
        e.answer == Err(SessionEnded) && e.db == Revoked(db, {t.sessionId}, dbNow, "member removed")
      else e.answer.Ok? || (next in db.tokens && e.answer == Err(ConstraintViolated) && e.db == db)
  {
  }

  /** Who can be changed at all. */
  lemma ActiveIff(db: Db, id: string)
    ensures Active(db, id) == Err(NotFound) <==> id !in db.members
    ensures Active(db, id) == Err(Removed) <==> id in db.members && db.members[id].removedAt.Some?
    ensures Active(db, id).Ok? <==> id in db.members && db.members[id].removedAt == None
  {
  }

  /** A new password: the hash and the flag are the member's from then on, and every sign-in they had is over. */
  lemma PasswordSays(db: Db, id: string, hash: string, temporary: bool, at: Time, reason: string)
    ensures PasswordSet(db, id, hash, temporary, at, reason).Ok? <==>
        id in db.members && db.members[id].removedAt == None
    ensures PasswordSet(db, id, hash, temporary, at, reason).Ok? ==>
      var out, m := PasswordSet(db, id, hash, temporary, at, reason).value, db.members[id];
      && out.members.Keys == db.members.Keys
      && out.members[id].passwordHash == hash && out.members[id].temporaryPassword == temporary
      && out.members[id].email == m.email && out.members[id].role == m.role && out.members[id].removedAt == None
      && (forall j :: j in db.members && j != id ==> out.members[j] == db.members[j])
      && OverFor(db, out, id, at, reason)
  {
  }

  /** Every session of the member is revoked, now or before, and has no token left; no other session changes. */
  ghost predicate OverFor(db: Db, out: Db, id: string, at: Time, reason: string) {
    && out.sessions.Keys == db.sessions.Keys
    && (forall s :: s in db.sessions && db.sessions[s].memberId != id ==> out.sessions[s] == db.sessions[s])
    && (forall s :: s in db.sessions && db.sessions[s].memberId == id ==>
          && out.sessions[s].memberId == id && out.sessions[s].endsAt == db.sessions[s].endsAt
          && out.sessions[s].revoked ==
             if db.sessions[s].revoked.Some? then db.sessions[s].revoked else Some(Revocation(at, reason)))
    && (forall t :: t in out.tokens <==>
          t in db.tokens
          && !(db.tokens[t].usedAt == None && db.tokens[t].sessionId in db.sessions
               && db.sessions[db.tokens[t].sessionId].memberId == id))
    && (forall t :: t in out.tokens ==> out.tokens[t] == db.tokens[t])
  }

  /** A removal marks the member and nothing else of the row, and ends their sign-ins; the last admin stays. */
  lemma RemovedSays(db: Db, id: string, at: Time)
    ensures MemberRemoved(db, id, at).Ok? <==>
      && id in db.members && db.members[id].removedAt == None
      && (db.members[id].role.Admin? ==>
            exists j :: j in db.members && j != id && db.members[j].role.Admin? && db.members[j].removedAt == None)
    ensures MemberRemoved(db, id, at).Ok? ==>
      var out := MemberRemoved(db, id, at).value;
      && out.members == db.members[id := db.members[id].(removedAt := Some(at))]
      && OverFor(db, out, id, at, "member removed")
  {
    assert AnotherAdmin(db.members, id) <==>
        exists j :: j in db.members && j != id && db.members[j].role.Admin? && db.members[j].removedAt == None by {
      if j :| j in db.members && j != id && db.members[j].role.Admin? && db.members[j].removedAt == None {
        assert ActiveAdmin(db.members, j);
      }
      if j :| j in db.members && j != id && ActiveAdmin(db.members, j) {
        assert db.members[j].role.Admin?;
      }
    }
  }

  /** A change of role changes one field of one row; only demoting the last admin is refused. */
  lemma RoleSays(db: Db, id: string, role: Role)
    ensures RoleChanged(db, id, role).Ok? <==>
      && id in db.members && db.members[id].removedAt == None
      && (db.members[id].role.Admin? && role.Recruiter? ==>
            exists j :: j in db.members && j != id && db.members[j].role.Admin? && db.members[j].removedAt == None)
    ensures RoleChanged(db, id, role).Ok? ==>
      var out := RoleChanged(db, id, role).value;
      && out == db.(members := out.members) && out.members == db.members[id := db.members[id].(role := role)]
  {
    assert AnotherAdmin(db.members, id) <==>
        exists j :: j in db.members && j != id && db.members[j].role.Admin? && db.members[j].removedAt == None by {
      if j :| j in db.members && j != id && db.members[j].role.Admin? && db.members[j].removedAt == None {
        assert ActiveAdmin(db.members, j);
      }
      if j :| j in db.members && j != id && ActiveAdmin(db.members, j) {
        assert db.members[j].role.Admin?;
      }
    }
  }

  /** A new member has the email, hash and role given, a temporary password, and is not removed. */
  lemma CreatedSays(db: Db, id: string, email: string, hash: string, role: Role)
    ensures Created(db, id, email, hash, role).Ok? <==>
      id !in db.members && forall j :: j in db.members && db.members[j].removedAt == None ==>
          db.members[j].email != email
    ensures Created(db, id, email, hash, role).Ok? ==>
      var out := Created(db, id, email, hash, role).value;
      && out == db.(members := out.members) && out.members.Keys == db.members.Keys + {id}
      && out.members[id].email == email && out.members[id].passwordHash == hash && out.members[id].role == role
      && out.members[id].temporaryPassword && out.members[id].removedAt == None
      && forall j :: j in db.members ==> out.members[j] == db.members[j]
  {
  }

  /** An email belongs to at most one active member. */
  ghost predicate EmailsApart(members: map<string, Member>) {
    forall i, j :: i in members && j in members && i != j && BothActive(members[i], members[j]) ==>
      members[i].email != members[j].email
  }

  predicate BothActive(m: Member, n: Member) {
    m.removedAt == None && n.removedAt == None
  }

  /** Whoever is added, removed, re-roled or given a new password: no two active members come to share an email. */
  lemma EmailsStayApart(db: Db, id: string, email: string, hash: string, role: Role, temporary: bool, at: Time,
                        reason: string)
    requires EmailsApart(db.members)
    ensures Created(db, id, email, hash, role).Ok? ==> EmailsApart(Created(db, id, email, hash, role).value.members)
    ensures RoleChanged(db, id, role).Ok? ==> EmailsApart(RoleChanged(db, id, role).value.members)
    ensures MemberRemoved(db, id, at).Ok? ==> EmailsApart(MemberRemoved(db, id, at).value.members)
    ensures PasswordSet(db, id, hash, temporary, at, reason).Ok? ==>
      EmailsApart(PasswordSet(db, id, hash, temporary, at, reason).value.members)
  {
    hide AnotherAdmin;
    CreatedSays(db, id, email, hash, role);
  }

  // ---------- The store ----------

  class Store {
    var members: map<string, Member>
    var sessions: map<string, Session>
    var tokens: map<string, Token>

    ghost function Value(): Db
      reads this
    {
      Db(members, sessions, tokens)
    }

    constructor ()
      ensures Value() == Db(map[], map[], map[])
    {
      members, sessions, tokens := map[], map[], map[];
    }

    /** Records a sign-in; also drops sessions that ended more than a day ago. */
    method StartSession(sessionId: string, memberId: string, endsAt: Time, token: string, now: Time)
      returns (r: Result<(), StoreError>)
      modifies this
      ensures
        match Started(old(Value()), sessionId, memberId, endsAt, token, now)
        case Ok(db) => r.Ok? && Value() == db
        case Err(e) => r == Err(e) && Value() == old(Value())
    {
      var kept := map s | s in sessions && !(sessions[s].endsAt < now - DAY) :: sessions[s];
      var keptTokens := map t | t in tokens && (tokens[t].sessionId in sessions ==> tokens[t].sessionId in kept) ::
          tokens[t];
      if memberId !in members || sessionId in kept || token in keptTokens {
        return Err(ConstraintViolated); // rolled back
      }
      sessions := kept[sessionId := Session(memberId, endsAt, None)];
      tokens := keptTokens[token := Token(sessionId, None)];
      return Ok(());
    }

    /** The UPDATE of revokeSession and revokeMemberSessions, on the sessions their WHERE clauses select. */
    method EndSessions(ids: set<string>, at: Time, reason: string)
      modifies this`sessions
      ensures Value() == SessionsEnded(old(Value()), ids, at, reason)
    {
      ghost var before := Value();
      var left := ids * sessions.Keys;
      while left != {}
        invariant left <= ids * sessions.Keys && sessions.Keys == before.sessions.Keys
        invariant forall s :: s in sessions && s in ids && s !in left ==>
            sessions[s] == Ended(before.sessions[s], at, reason)
        invariant forall s :: s in sessions && (s !in ids || s in left) ==> sessions[s] == before.sessions[s]
        decreases left
      {
        var s :| s in left;
        left := left - {s};
        if sessions[s].revoked == None {
          sessions := sessions[s := sessions[s].(revoked := Some(Revocation(at, reason)))];
        }
      }
    }

    /** Their DELETE: used tokens are left, which is what makes a second presentation recognisable. */
    method DeleteUnusedTokens(ids: set<string>)
      modifies this`tokens
      ensures Value() == Without(old(Value()), UnusedTokens(old(Value()), ids))
    {
      tokens := map t | t in tokens && !(tokens[t].usedAt == None && tokens[t].sessionId in ids) :: tokens[t];
    }

    /** Both statements, with no other transaction's in between. */
    method Revoke(ids: set<string>, at: Time, reason: string)
      modifies this`sessions, this`tokens
      ensures Value() == Revoked(old(Value()), ids, at, reason)
    {
      EndSessions(ids, at, reason);
      DeleteUnusedTokens(ids);
    }

    /** Exchanges one refresh token for the next; a refusal still commits the revocation it found due. */
    method RotateRefreshToken(presented: string, now: Time, next: string,
                              dbNow: Time) returns (r: Result<Rotation, StoreError>)
      modifies this
      ensures Exchange(Value(), r) == Rotated(old(Value()), presented, now, next, dbNow)
    {
      if presented !in tokens || tokens[presented].sessionId !in sessions
         || sessions[tokens[presented].sessionId].memberId !in members {
        return Err(InvalidRefresh); // the join finds no row
      }
      var t := tokens[presented];
      var s := sessions[t.sessionId];
      var m := members[s.memberId];
      if t.usedAt.Some? {
        Revoke({t.sessionId}, dbNow, "refresh token reused");
        return Err(TokenReused);
      }
      if s.revoked.Some? || s.endsAt <= now {
        return Err(SessionEnded);
      }
      if m.removedAt.Some? {
        Revoke({t.sessionId}, dbNow, "member removed");
        return Err(SessionEnded);
      }
      if next in tokens {
        return Err(ConstraintViolated); // rolled back
      }
      tokens := tokens[presented := t.(usedAt := Some(now))];
      tokens := tokens[next := Token(t.sessionId, None)];
      return Ok(Rotation(s.memberId, m.role, s.endsAt));
    }

    method LockActiveMember(id: string) returns (r: Result<Member, StoreError>)
      ensures r == Active(Value(), id)
    {
      if id !in members {
        return Err(NotFound);
      }
      if members[id].removedAt.Some? {
        return Err(Removed);
      }
      return Ok(members[id]);
    }

    /** Counts the other active admins. */
    method EnsureAnotherAdmin(id: string) returns (ok: bool)
      ensures ok <==> AnotherAdmin(members, id)
    {
      var others := |set j | j in members && members[j].role == Admin && members[j].removedAt == None && j != id|;
      ghost var found := set j | j in members && members[j].role == Admin && members[j].removedAt == None && j != id;
      assert others == |found|;
      if others == 0 {
        assert forall j :: j in found <==> j in members && j != id && ActiveAdmin(members, j);
        return false;
      }
      ghost var j :| j in found;
      assert ActiveAdmin(members, j);
      return true;
    }

    method ChangeRole(id: string, role: Role) returns (r: Result<Member, StoreError>)
      modifies this`members
      ensures
        match RoleChanged(old(Value()), id, role)
        case Ok(db) => Value() == db && r == Ok(db.members[id])
        case Err(e) => r == Err(e) && Value() == old(Value())
    {
      var current := LockActiveMember(id);
      if current.Err? {
        return current;
      }
      if current.value.role == Admin && role != Admin {
        var another := EnsureAnotherAdmin(id);
        if !another {
          return Err(LastAdmin);
        }
      }
      members := members[id := current.value.(role := role)];
      return Ok(members[id]);
    }

    /** SetPassword and ReplaceOwnPassword, which differ in the flag and the reason. */
    method SetPassword(id: string, hash: string, temporary: bool, at: Time,
                       reason: string) returns (r: Result<Member, StoreError>)
      modifies this
      ensures
        match PasswordSet(old(Value()), id, hash, temporary, at, reason)
        case Ok(db) => Value() == db && r == Ok(db.members[id])
        case Err(e) => r == Err(e) && Value() == old(Value())
    {
      var current := LockActiveMember(id);
      if current.Err? {
        return current;
      }
      members := members[id := current.value.(passwordHash := hash, temporaryPassword := temporary)];
      Revoke((set s | s in sessions && sessions[s].memberId == id), at, reason);
      return Ok(members[id]);
    }

    method Remove(id: string, at: Time) returns (r: Result<(), StoreError>)
      modifies this
      ensures
        match MemberRemoved(old(Value()), id, at)
        case Ok(db) => Value() == db && r.Ok?
        case Err(e) => r == Err(e) && Value() == old(Value())
    {
      var current := LockActiveMember(id);
      if current.Err? {
        return Err(current.error);
      }
      if current.value.role == Admin {
        var another := EnsureAnotherAdmin(id);
        if !another {
          return Err(LastAdmin);
        }
      }
      members := members[id := current.value.(removedAt := Some(at))];
      Revoke((set s | s in sessions && sessions[s].memberId == id), at, "member removed");
      return Ok(());
    }

    method Create(id: string, email: string, hash: string, role: Role) returns (r: Result<Member, StoreError>)
      modifies this`members
      ensures
        match Created(old(Value()), id, email, hash, role)
        case Ok(db) => Value() == db && r == Ok(db.members[id])
        case Err(e) => r == Err(e) && Value() == old(Value())
    {
      if id in members || exists j :: j in members && members[j].email == email && members[j].removedAt == None {
        return Err(EmailTaken);
      }
      members := members[id := Member(email, role, hash, true, None)];
      return Ok(members[id]);
    }
  }
}
