/**
 * One browser tab in front of the Identity Service: the refresh cookie, the shared refresh request,
 * sign-ins and sign-outs, with everybody else's transactions in between. Nobody else holds a copy of
 * a token that is in the tab's cookie or on its way there.
 */
module Browser {
  import opened Prelude
  import opened Identity
  import opened SignIns

  /** What the tab's refresh request is answered with. */
  datatype Reply =
    | Renewed(token: string) // 200: the gateway moves the new token into the cookie
    | Refused                // 401 from the Identity Service: the gateway clears the cookie
    | Failed                 // 500: the gateway leaves the cookie alone
    | NoSession              // 401 from the gateway itself: no cookie came along

  /** The module variable `refreshing`: at most one request, carrying the cookie as it was when sent. */
  datatype Flight = Idle | Sent(carried: Option<string>) | Answered(carried: Option<string>, reply: Reply)

  /** `arriving` holds the tokens of sign-ins that were answered but not delivered. */
  datatype Tab = Tab(cookie: Option<string>, refreshing: Flight, arriving: set<string>)

  /** `clock` is the Identity Service's: no refresh reads an earlier time. */
  datatype World = World(run: Run, tab: Tab, clock: Time)

  /** What goes wrong in the Identity Service around a rotation. */
  datatype Trouble = Fine | BeforeCommit | AfterCommit

  datatype Event =
    | Want                                                            // a 401, or the page loading
    | Rotate(now: Time, next: string, dbNow: Time, trouble: Trouble)  // the request is served
    | Deliver                                                         // its answer reaches the tab
    | SignIn(start: Op)                                               // a sign-in of this tab is served
    | SignedIn(token: string)                                         // and its answer arrives
    | Cleared                                                         // a sign-out's answer, or the cookie expires
    | Other(op: Op)                                                   // anybody else's transaction
    | Passes(now: Time)                                               // time goes by

  function AsSet(o: Option<string>): set<string> {
    if o.Some? then {o.value} else {}
  }

  /** Every token in the tab's cookie or on its way to or from it. */
  function Held(tab: Tab): set<string> {
    AsSet(tab.cookie) + tab.arriving
    + (if tab.refreshing.Idle? then {} else AsSet(tab.refreshing.carried))
    + (if tab.refreshing.Answered? && tab.refreshing.reply.Renewed? then {tab.refreshing.reply.token} else {})
  }

  function RefreshOf(token: string, e: Event): Op
    requires e.Rotate?
  {
    Refresh(token, e.now, e.next, e.dbNow)
  }

  /** The request carries a cookie, and the transaction is carried out. */
  predicate Reaches(tab: Tab, e: Event) {
    e.Rotate? && tab.refreshing.Sent? && tab.refreshing.carried.Some? && e.trouble != BeforeCommit
  }

  function Refreshing(tab: Tab, e: Event): Op
    requires Reaches(tab, e)
  {
    RefreshOf(tab.refreshing.carried.value, e)
  }

  /** Possible as far as the ids are concerned and nobody holds a lock the event needs. */
  predicate Possible(w: World, e: Event) {
    match e
    case Rotate(now, next, _, trouble) =>
      && w.tab.refreshing.Sent? && next !in w.run.issued && w.clock <= now
      && (Reaches(w.tab, e) ==> Enabled(w.run, Refreshing(w.tab, e)))
    case Deliver => w.tab.refreshing.Answered?
    case SignIn(start) => start.StartSession? && Enabled(w.run, start)
    case SignedIn(token) => token in w.tab.arriving
    case Other(op) => Enabled(w.run, op) && (op.Refresh? ==> op.presented !in Held(w.tab) && w.clock <= op.now)
    case Passes(now) => w.clock <= now
    case _ => true
  }

  /** The Identity Service's refresh handler behind the gateway. */
  function Served(w: World, e: Event): World
    requires e.Rotate? && Possible(w, e)
  {
    var carried := w.tab.refreshing.carried;
    if carried == None then w.(tab := w.tab.(refreshing := Answered(None, NoSession)))
    else if e.trouble == BeforeCommit then w.(tab := w.tab.(refreshing := Answered(carried, Failed)))
    else
      var op := RefreshOf(carried.value, e);
      var answer := Exchanged(w.run.db, op).answer;
      var reply :=
        if e.trouble == AfterCommit then Failed
        else if answer.Ok? then Renewed(e.next)
        else if answer.error == ConstraintViolated then Failed
        else Refused;
      w.(run := Step(w.run, op), tab := w.tab.(refreshing := Answered(carried, reply)))
  }

  function Next(w: World, e: Event): World
    requires Possible(w, e)
  {
    match e
    case Want => if w.tab.refreshing.Idle? then w.(tab := w.tab.(refreshing := Sent(w.tab.cookie))) else w
    case Rotate(now, _, _, _) => Served(w, e).(clock := now)
    case Deliver =>
      var cookie :=
        match w.tab.refreshing.reply
        case Renewed(token) => Some(token)
        case Refused => None
        case Failed => w.tab.cookie
        case NoSession => w.tab.cookie;
      w.(tab := w.tab.(cookie := cookie, refreshing := Idle))
    case SignIn(start) =>
      var run := Step(w.run, start);
      if run == w.run then w
      else w.(run := run, tab := w.tab.(arriving := w.tab.arriving + {start.token}))
    case SignedIn(token) => w.(tab := w.tab.(cookie := Some(token), arriving := w.tab.arriving - {token}))
    case Cleared => w.(tab := w.tab.(cookie := None))
    case Other(op) => w.(run := Step(w.run, op), clock := if op.Refresh? then op.now else w.clock)
    case Passes(now) => w.(clock := now)
  }

  predicate CanHappen(w: World, events: seq<Event>)
    decreases |events|
  {
    events != [] ==> Possible(w, events[0]) && CanHappen(Next(w, events[0]), events[1..])
  }

  function Later(w: World, events: seq<Event>): World
    requires CanHappen(w, events)
    decreases |events|
  {
    if events == [] then w else Later(Next(w, events[0]), events[1..])
  }

  // ---------- What the tab gets to see ----------

  /**
   * What a refresh is answered with. 401 comes from the gateway for a request without a cookie, and from the
   * Identity Service for a token that is not there, used, or of a sign-in or member that is over; every other
   * error is a 500, also after the exchange was committed.
   */
  lemma AnsweredWith(w: World, e: Event)
    requires e.Rotate? && Possible(w, e)
    ensures Next(w, e).tab == w.tab.(refreshing := Next(w, e).tab.refreshing)
    ensures Next(w, e).tab.refreshing.Answered? && Next(w, e).tab.refreshing.carried == w.tab.refreshing.carried
    ensures
      var carried, reply, db := w.tab.refreshing.carried, Next(w, e).tab.refreshing.reply, w.run.db;
      if carried == None then reply.NoSession? && Next(w, e).run == w.run
      else if e.trouble.BeforeCommit? then reply.Failed? && Next(w, e).run == w.run
      else if e.trouble.AfterCommit? then reply.Failed?
      else
        && !reply.NoSession?
        && (reply.Refused? <==>
              || carried.value !in db.tokens || db.tokens[carried.value].sessionId !in db.sessions
              || var t, s := db.tokens[carried.value], db.sessions[db.tokens[carried.value].sessionId];
                 || s.memberId !in db.members || t.usedAt.Some? || s.revoked.Some? || e.now >= s.endsAt
                 || db.members[s.memberId].removedAt.Some?)
        && (reply.Renewed? <==> !reply.Refused? && e.next !in db.tokens)
        && (reply.Renewed? ==> reply.token == e.next)
  {
    hide Step;
  }

  /**
   * The cookie changes hands in four ways only: a renewal or a sign-in's answer puts its token there, and the
   * Identity Service's refusal or the clearing takes it away.
   */
  lemma CookieChangesIff(w: World, e: Event)
    requires Possible(w, e)
    ensures
      var after := Next(w, e).tab.cookie;
      if e.SignedIn? then after == Some(e.token)
      else if e.Cleared? then after == None
      else if e.Deliver? && w.tab.refreshing.reply.Renewed? then after == Some(w.tab.refreshing.reply.token)
      else if e.Deliver? && w.tab.refreshing.reply.Refused? then after == None
      else after == w.tab.cookie
  {
    hide Step;
  }

  // ---------- The invariant ----------

  /** Issued, and not exchanged: still exchangeable, or gone with its sign-in. */
  predicate Unspent(r: Run, token: string) {
    token in r.issued && (token in r.db.tokens ==> r.db.tokens[token].usedAt == None)
  }

  /** A token whose row is gone went because its sign-in is over or stranded. */
  predicate Traced(r: Run) {
    forall t :: t in r.issued && t !in r.db.tokens ==> Dead(r, r.issued[t])
  }

  /** The cookie may be a spent token only while the answer that replaces it is on its way. */
  predicate CookieOk(w: World) {
    var flight := w.tab.refreshing;
    w.tab.cookie.Some? ==>
      || Unspent(w.run, w.tab.cookie.value)
      || (w.tab.cookie.value in w.run.issued && flight.Answered? && flight.reply.Renewed?
          && flight.carried == w.tab.cookie)
  }

  predicate FlightOk(w: World) {
    match w.tab.refreshing
    case Idle => true
    case Sent(carried) => carried.Some? ==> Unspent(w.run, carried.value) && carried.value !in w.tab.arriving
    case Answered(_, reply) => reply.Renewed? ==> Unspent(w.run, reply.token) && reply.token !in w.tab.arriving
  }

  predicate ArrivingOk(w: World) {
    && (forall t :: t in w.tab.arriving ==> Unspent(w.run, t))
    && (w.tab.cookie.Some? ==> w.tab.cookie.value !in w.tab.arriving)
  }

  predicate Inv(w: World) {
    Chained(w.run) && Traced(w.run) && CookieOk(w) && FlightOk(w) && ArrivingOk(w)
  }

  lemma RevokedTogether(db: Db, ids: set<string>, at: Time, reason: string, t: string)
    requires RowsResolve(db) && t in db.tokens && t !in Revoked(db, ids, at, reason).tokens
    ensures var s := db.tokens[t].sessionId; s in db.sessions && Revoked(db, ids, at, reason).sessions[s].revoked.Some?
  {
  }

  lemma DeletedByRefresh(r: Run, op: Op, t: string)
    requires RowsResolve(r.db) && op.Refresh? && t in r.db.tokens && t !in Step(r, op).db.tokens
    ensures var s := r.db.tokens[t].sessionId; s in Step(r, op).db.sessions && Step(r, op).db.sessions[s].revoked.Some?
  {
    var sid := r.db.tokens[op.presented].sessionId;
    if r.db.tokens[op.presented].usedAt.Some? {
      RevokedTogether(r.db, {sid}, op.dbNow, "refresh token reused", t);
    } else {
      RevokedTogether(r.db, {sid}, op.dbNow, "member removed", t);
    }
  }

  lemma DeletedByCommit(r: Run, t: string)
    requires Chained(r) && Enabled(r, Commit) && t in r.db.tokens && t !in Step(r, Commit).db.tokens
    ensures Dead(Step(r, Commit), r.db.tokens[t].sessionId)
  {
    var p, s := r.pending.value, r.db.tokens[t].sessionId;
    assert UnusedOn(r.db, t, LockedBy(p));
    assert s in p.locked || s in p.dropped.value.early;
    hide AllLinear;
  }

  /** A transaction deletes a token only by ending its sign-in, or by stranding it. */
  lemma DeletedWithItsSignIn(r: Run, op: Op, t: string)
    requires Chained(r) && Enabled(r, op) && t in r.db.tokens && t !in Step(r, op).db.tokens
    ensures Dead(Step(r, op), r.issued[t])
  {
    IssuedGrows(r, op);
    var s := r.db.tokens[t].sessionId;
    assert s in r.db.sessions && r.issued[t] == s && s in r.issued.Values;
    match op
    case StartSession(_, _, _, _, now) => assert s !in Swept(r.db, now).sessions;
    case Refresh(_, _, _, _) =>
      hide Step;
      DeletedByRefresh(r, op, t);
    case Commit =>
      hide Step, Chained;
      DeletedByCommit(r, t);
    case _ =>
  }

  lemma StepKeepsTraced(r: Run, op: Op)
    requires Chained(r) && Traced(r) && Enabled(r, op)
    ensures Traced(Step(r, op))
  {
    IssuedGrows(r, op);
    IssuesWhatItStores(r, op);
    var out := Step(r, op);
    forall t | t in out.issued && t !in out.db.tokens
      ensures Dead(out, out.issued[t])
    {
      hide Step, Dead, AllLinear, Enabled;
      if t in r.db.tokens {
        DeletedWithItsSignIn(r, op, t);
      } else {
        DeadStays(r, op, r.issued[t]);
      }
    }
  }

  lemma IssuesWhatItStores(r: Run, op: Op)
    ensures forall t :: t in Step(r, op).issued && t !in r.issued ==> t in Step(r, op).db.tokens
  {
  }

  /** Only its own exchange spends a token. */
  lemma UnspentStays(r: Run, op: Op, token: string)
    requires Enabled(r, op) && Unspent(r, token) && (op.Refresh? ==> op.presented != token)
    ensures Unspent(Step(r, op), token)
  {
    IssuedGrows(r, op);
  }

  lemma TransactionKeepsInv(w: World, op: Op)
    requires Inv(w) && Enabled(w.run, op) && (op.Refresh? ==> op.presented !in Held(w.tab))
    ensures Inv(w.(run := Step(w.run, op)))
  {
    StepKeepsChains(w.run, op);
    StepKeepsTraced(w.run, op);
    IssuedGrows(w.run, op);
    forall t | t in Held(w.tab) && Unspent(w.run, t)
      ensures Unspent(Step(w.run, op), t)
    {
      UnspentStays(w.run, op, t);
    }
    hide Step, Enabled, Chained, Traced, Unspent;
  }

  lemma RefusalSpendsNothing(r: Run, op: Op, token: string)
    requires op.Refresh? && Exchanged(r.db, op).answer.Err? && Unspent(r, token)
    ensures Unspent(Step(r, op), token)
  {
  }

  lemma ExchangeIssues(r: Run, op: Op)
    requires Chained(r) && Traced(r) && Enabled(r, op) && op.Refresh?
    ensures Chained(Step(r, op)) && Traced(Step(r, op))
    ensures Exchanged(r.db, op).answer.Ok? ==> Unspent(Step(r, op), op.next)
    ensures Unspent(r, op.presented) ==> Exchanged(r.db, op).answer != Err(TokenReused)
  {
    StepKeepsChains(r, op);
    StepKeepsTraced(r, op);
  }

  /** The rotation of the very token in the cookie is committed, and its answer is lost. */
  predicate Lost(w: World, e: Event) {
    && Reaches(w.tab, e) && e.trouble == AfterCommit
    && w.tab.cookie == w.tab.refreshing.carried
    && Exchanged(w.run.db, Refreshing(w.tab, e)).answer.Ok?
  }

  /** What a rotation leaves of the tokens that were not exchanged by it. */
  lemma RotatingSpendsOne(w: World, e: Event)
    requires Inv(w) && Reaches(w.tab, e) && Possible(w, e)
    ensures
      var r, op := w.run, Refreshing(w.tab, e);
      && Chained(Step(r, op)) && Traced(Step(r, op))
      && (forall t :: t in r.issued || Unspent(r, t) ==> t in Step(r, op).issued) && !Unspent(r, op.next)
      && (forall t :: Unspent(r, t) && (t != op.presented || Exchanged(r.db, op).answer.Err?) ==>
          Unspent(Step(r, op), t))
      && (Exchanged(r.db, op).answer.Ok? ==> Unspent(Step(r, op), op.next) && !Unspent(Step(r, op), op.presented))
  {
    var r, op := w.run, Refreshing(w.tab, e);
    ExchangeIssues(r, op);
    forall t | Unspent(r, t) && (t != op.presented || Exchanged(r.db, op).answer.Err?)
      ensures Unspent(Step(r, op), t)
    {
      if t == op.presented {
        RefusalSpendsNothing(r, op, t);
      } else {
        UnspentStays(r, op, t);
      }
    }
    IssuedGrows(r, op);
  }

  lemma LostAnswersBreakIt(w: World, e: Event)
    requires Inv(w) && Possible(w, e) && Lost(w, e)
    ensures !CookieOk(Next(w, e))
  {
    hide Step, Chained, Traced, Exchanged, Unspent, Enabled;
    RotatingSpendsOne(w, e);
  }

  lemma OtherAnswersKeepIt(w: World, e: Event)
    requires Inv(w) && Reaches(w.tab, e) && Possible(w, e) && !Lost(w, e)
    ensures Inv(Next(w, e))
  {
    hide Step, Chained, Traced, Exchanged, Unspent, Enabled;
    RotatingSpendsOne(w, e);
  }

  /** The only rotation that breaks the invariant is one whose answer is lost while the cookie waits for it. */
  lemma RotatingKeepsInvIff(w: World, e: Event)
    requires Inv(w) && e.Rotate? && Possible(w, e)
    ensures Inv(Next(w, e)) <==> !Lost(w, e)
  {
    if Lost(w, e) {
      hide *;
      hide Inv, Next;
      LostAnswersBreakIt(w, e);
    } else if Reaches(w.tab, e) {
      OtherAnswersKeepIt(w, e);
    } else {
      hide Chained, Traced, Unspent, Exchanged;
    }
  }

  lemma SignInKeepsInv(w: World, e: Event)
    requires Inv(w) && e.SignIn? && Possible(w, e)
    ensures Inv(Next(w, e))
  {
    var op, r := e.start, w.run;
    assert !Unspent(r, op.token);
    TransactionKeepsInv(w, op);
    var out := Step(r, op);
    if out != r {
      assert Unspent(out, op.token);
      hide Step, Chained, Traced, Enabled;
    }
  }

  lemma NextKeepsInv(w: World, e: Event)
    requires Inv(w) && Possible(w, e) && !Lost(w, e)
    ensures Inv(Next(w, e))
  {
    match e
    case Rotate(_, _, _, _) => RotatingKeepsInvIff(w, e);
    case SignIn(_) => SignInKeepsInv(w, e);
    case Other(op) => TransactionKeepsInv(w, op);
    case _ => hide Chained, Traced, Unspent;
  }

  // ---------- What it promises ----------

  /** A tab that has never signed in, in front of any store the Identity Service can have reached. */
  predicate Opened(w: World) {
    Chained(w.run) && Traced(w.run) && w.tab == Tab(None, Idle, {})
  }

  /** No cookie, the current token of its sign-in, or a token of a sign-in that was revoked, deleted or stranded. */
  predicate Harmless(r: Run, cookie: Option<string>) {
    cookie.Some? ==>
      && cookie.value in r.issued
      && (Dead(r, r.issued[cookie.value])
          || (cookie.value in r.db.tokens && Unused(r.db, r.issued[cookie.value]) == {cookie.value}))
  }

  /** No answer the cookie waits for is lost on the way. */
  predicate NoneLost(w: World, events: seq<Event>)
    requires CanHappen(w, events)
    decreases |events|
  {
    events != [] ==> !Lost(w, events[0]) && NoneLost(Next(w, events[0]), events[1..])
  }

  lemma {:induction false} LaterKeepsInv(w: World, events: seq<Event>)
    requires Inv(w) && CanHappen(w, events) && NoneLost(w, events)
    ensures Inv(Later(w, events))
    decreases |events|
  {
    if events != [] {
      NextKeepsInv(w, events[0]);
      LaterKeepsInv(Next(w, events[0]), events[1..]);
    }
  }

  lemma UnspentIsHarmless(r: Run, token: string)
    requires Chained(r) && Traced(r) && Unspent(r, token)
    ensures Harmless(r, Some(token))
  {
    if token in r.db.tokens {
      var s := r.db.tokens[token].sessionId;
      assert Linear(r.db, s) && token in Unused(r.db, s);
    }
  }

  /**
   * Whatever sign-ins, sign-outs and concurrent 401s there are: with no refresh in flight the cookie is
   * harmless, and no rotation is ever asked for with a token that was already exchanged.
   */
  lemma TheTabNeverTripsReuse(w: World, events: seq<Event>, e: Event)
    requires Opened(w) && CanHappen(w, events) && NoneLost(w, events)
    ensures Later(w, events).tab.refreshing.Idle? ==> Harmless(Later(w, events).run, Later(w, events).tab.cookie)
    ensures
      var now := Later(w, events);
      Reaches(now.tab, e) && Possible(now, e) ==>
          Exchanged(now.run.db, Refreshing(now.tab, e)).answer != Err(TokenReused)
  {
    LaterKeepsInv(w, events);
    var now := Later(w, events);
    IdleIsHarmless(now);
    if Reaches(now.tab, e) && Possible(now, e) {
      ExchangeIssues(now.run, Refreshing(now.tab, e));
    }
  }

  lemma IdleIsHarmless(w: World)
    requires Inv(w)
    ensures w.tab.refreshing.Idle? ==> Harmless(w.run, w.tab.cookie)
  {
    if w.tab.refreshing.Idle? && w.tab.cookie.Some? {
      UnspentIsHarmless(w.run, w.tab.cookie.value);
    }
  }

  lemma LaterOfCons(w: World, a: Event, rest: seq<Event>)
    requires Possible(w, a) && CanHappen(Next(w, a), rest)
    ensures CanHappen(w, [a] + rest) && Later(w, [a] + rest) == Later(Next(w, a), rest)
  {
    assert ([a] + rest)[1..] == rest;
  }

  lemma LaterOfTwo(w: World, a: Event, b: Event)
    requires Possible(w, a) && Possible(Next(w, a), b)
    ensures CanHappen(w, [a, b]) && Later(w, [a, b]) == Next(Next(w, a), b)
  {
    hide Possible, Next;
    LaterOfCons(Next(w, a), b, []);
    assert [b] + [] == [b];
    LaterOfCons(w, a, [b]);
    assert [a] + [b] == [a, b];
  }

  lemma LaterOfThree(w: World, a: Event, b: Event, c: Event)
    requires Possible(w, a) && Possible(Next(w, a), b) && Possible(Next(Next(w, a), b), c)
    ensures CanHappen(w, [a, b, c]) && Later(w, [a, b, c]) == Next(Next(Next(w, a), b), c)
  {
    hide Possible, Next;
    LaterOfTwo(Next(w, a), b, c);
    LaterOfCons(w, a, [b, c]);
    assert [a] + [b, c] == [a, b, c];
  }

  /**
   * The answers have to arrive: whatever becomes of a rotation, once the tab has its answer the cookie is
   * harmless, except when the Identity Service committed the rotation of the cookie's own token and then
   * answered 500.
   */
  lemma TheCookieIsHarmlessIff(w: World, e: Event)
    requires Inv(w) && e.Rotate? && Possible(w, e)
    ensures CanHappen(w, [e, Deliver])
    ensures
      var end := Later(w, [e, Deliver]);
      Harmless(end.run, end.tab.cookie) <==> !Lost(w, e)
  {
    LaterOfTwo(w, e, Deliver);
    if Lost(w, e) {
      ExchangedIsSpent(w.run, Refreshing(w.tab, e));
      hide Chained, Exchanged, Step, Harmless;
    } else {
      RotatingKeepsInvIff(w, e);
      NextKeepsInv(Next(w, e), Deliver);
      IdleIsHarmless(Next(Next(w, e), Deliver));
    }
  }

  /** A token that was exchanged is neither current nor gone with its sign-in. */
  lemma ExchangedIsSpent(r: Run, op: Op)
    requires Chained(r) && Enabled(r, op) && op.Refresh? && Exchanged(r.db, op).answer.Ok?
    ensures
      var out := Step(r, op);
      && op.presented in out.db.tokens && out.db.tokens[op.presented].usedAt.Some? && !Harmless(out, Some(op.presented))
  {
    var out := Step(r, op);
    var s := r.db.tokens[op.presented].sessionId;
    ExchangeIsOfALiveSignIn(r, op);
    assert out.issued[op.presented] == s && op.presented !in Unused(out.db, s);
    assert s in out.db.sessions && out.db.sessions[s].revoked.None?;
    assert UnusedOn(out.db, op.next, {s}) && op.next in Unused(out.db, s);
    hide Chained, Exchanged, Step;
  }

  /** A refresh with a spent token in the cookie ends the sign-in it came from. */
  lemma ASpentCookieEndsTheSignIn(w: World, e: Event)
    requires Chained(w.run) && w.tab.refreshing.Idle? && w.tab.cookie.Some?
    requires w.tab.cookie.value in w.run.db.tokens && w.run.db.tokens[w.tab.cookie.value].usedAt.Some?
    requires e.Rotate? && e.trouble == Fine && Enabled(w.run, RefreshOf(w.tab.cookie.value, e)) && w.clock <= e.now
    ensures CanHappen(w, [Want, e, Deliver])
    ensures Exchanged(w.run.db, RefreshOf(w.tab.cookie.value, e)).answer == Err(TokenReused)
    ensures
      var end := Later(w, [Want, e, Deliver]);
      Over(end.run, w.run.issued[w.tab.cookie.value]) && end.tab.cookie == None
  {
    var op := RefreshOf(w.tab.cookie.value, e);
    ReuseEndsTheSignIn(w.run, op);
    assert w.run.issued[op.presented] == w.run.db.tokens[op.presented].sessionId;
    hide Chained, Exchanged, Step, Over, Written, Unused;
    RefusedRotation(w, e);
  }

  lemma RefusedRotation(w: World, e: Event)
    requires w.tab.refreshing.Idle? && w.tab.cookie.Some?
    requires e.Rotate? && e.trouble == Fine && Enabled(w.run, RefreshOf(w.tab.cookie.value, e)) && w.clock <= e.now
    requires Exchanged(w.run.db, RefreshOf(w.tab.cookie.value, e)).answer == Err(TokenReused)
    ensures CanHappen(w, [Want, e, Deliver])
    ensures Later(w, [Want, e, Deliver])
            == World(Step(w.run, RefreshOf(w.tab.cookie.value, e)), w.tab.(cookie := None), e.now)
  {
    hide Exchanged, Step;
    LaterOfThree(w, Want, e, Deliver);
  }

  // ---------- How long a sign-out lasts ----------

  /** The current token of an open sign-in before its cap, of a member who is not removed. */
  predicate Exchangeable(r: Run, clock: Time, token: string) {
    && token in r.db.tokens && r.db.tokens[token].sessionId in r.db.sessions
    && Unused(r.db, r.db.tokens[token].sessionId) == {token}
    && !Gone(r, r.db.sessions[r.db.tokens[token].sessionId].memberId)
    && clock < r.db.sessions[r.db.tokens[token].sessionId].endsAt
  }

  /** Nothing on its way to the tab can put a token into the cookie. */
  predicate NothingComesBack(w: World) {
    && w.tab.arriving == {}
    && (w.tab.refreshing.Answered? ==> !w.tab.refreshing.reply.Renewed?)
    && (w.tab.refreshing.Sent? && w.tab.refreshing.carried.Some? ==>
        !Exchangeable(w.run, w.clock, w.tab.refreshing.carried.value))
  }

  predicate SignInFree(events: seq<Event>) {
    forall i :: 0 <= i < |events| ==> !events[i].SignIn?
  }

  /** A token cannot be exchanged when it was used or deleted, its member was removed, or its cap has passed. */
  lemma NotExchangeableIff(r: Run, clock: Time, token: string)
    requires Chained(r) && token in r.issued
    ensures !Exchangeable(r, clock, token) <==>
      || Spent(r, token)
      || Gone(r, r.db.sessions[r.db.tokens[token].sessionId].memberId)
      || r.db.sessions[r.db.tokens[token].sessionId].endsAt <= clock
  {
    if token in r.db.tokens {
      var s := r.db.tokens[token].sessionId;
      assert Linear(r.db, s) && (r.db.tokens[token].usedAt == None <==> token in Unused(r.db, s));
    }
  }

  /** And from then on it never can be. */
  lemma NotExchangeableStays(r: Run, op: Op, clock: Time, later: Time, token: string)
    requires Chained(r) && Enabled(r, op) && token in r.issued && !Exchangeable(r, clock, token) && clock <= later
    ensures !Exchangeable(Step(r, op), later, token)
  {
    NotExchangeableIff(r, clock, token);
    StepKeepsChains(r, op);
    IssuedGrows(r, op);
    NotExchangeableIff(Step(r, op), later, token);
    StepKeepsTheSpent(r, op);
    StepKeepsTheRows(r, op);
    if !Spent(Step(r, op), token) {
      var s := r.db.tokens[token].sessionId;
      var row := r.db.sessions[s];
      assert Written(r, s, row.memberId, row.endsAt, None);
      hide Step, Spent, Gone, Exchangeable, AllLinear, Enabled;
    }
  }

  lemma NotExchangeableIsRefused(r: Run, clock: Time, op: Op)
    requires Chained(r) && Enabled(r, op) && op.Refresh? && !Exchangeable(r, clock, op.presented) && clock <= op.now
    ensures Exchanged(r.db, op).answer.Err?
  {
    RefreshSucceedsIff(r, op);
  }

  lemma StillSignedOut(w: World, e: Event)
    requires Inv(w) && w.tab.cookie == None && NothingComesBack(w) && Possible(w, e) && !e.SignIn?
    ensures Inv(Next(w, e)) && Next(w, e).tab.cookie == None && NothingComesBack(Next(w, e))
  {
    NextKeepsInv(w, e);
    var flight := w.tab.refreshing;
    match e
    case Rotate(_, _, _, _) =>
      if Reaches(w.tab, e) {
        NotExchangeableIsRefused(w.run, w.clock, Refreshing(w.tab, e));
      }
      hide Step, Inv, Exchanged, Exchangeable, Enabled;
    case Other(op) =>
      if flight.Sent? && flight.carried.Some? {
        assert flight.carried.value in w.run.issued;
        NotExchangeableStays(w.run, op, w.clock, Next(w, e).clock, flight.carried.value);
      }
      hide Step, Inv, Exchangeable, Enabled;
    case _ =>
  }

  lemma {:induction false} SignedOutForGood(w: World, events: seq<Event>)
    requires Inv(w) && w.tab.cookie == None && NothingComesBack(w) && CanHappen(w, events) && SignInFree(events)
    ensures Later(w, events).tab.cookie == None
    decreases |events|
  {
    hide Inv, NothingComesBack, Possible, Next;
    if events != [] {
      assert !events[0].SignIn?;
      StillSignedOut(w, events[0]);
      SignedOutForGood(Next(w, events[0]), events[1..]);
    }
  }

  /** No finite set holds every string. */
  lemma {:induction false} Outside(strings: set<string>) returns (x: string)
    ensures x !in strings
  {
    var longest := LongerThanAll(strings);
    x := seq(longest, _ => 'x');
  }

  lemma {:induction false} LongerThanAll(strings: set<string>) returns (n: nat)
    ensures forall x :: x in strings ==> |x| < n
  {
    n := 0;
    if strings != {} {
      var x :| x in strings;
      var m := LongerThanAll(strings - {x});
      n := if m > |x| then m else |x| + 1;
    }
  }

  /** A refresh on its way with a token that can be exchanged brings a token back. */
  lemma ComesBackRotated(w: World) returns (events: seq<Event>)
    requires Inv(w) && w.tab.refreshing.Sent? && w.tab.refreshing.carried.Some? && w.run.pending == None
    requires Exchangeable(w.run, w.clock, w.tab.refreshing.carried.value)
    ensures CanHappen(w, events) && SignInFree(events) && Later(w, events).tab.cookie.Some?
  {
    var next := Outside(w.run.issued.Keys);
    var e := Rotate(w.clock, next, 0, Fine);
    assert Enabled(w.run, Refreshing(w.tab, e));
    RefreshSucceedsIff(w.run, Refreshing(w.tab, e));
    events := [e, Deliver];
    hide Inv, Exchanged, Exchangeable, Step;
    LaterOfTwo(w, e, Deliver);
  }

  /** A change in the way of the refresh can always be given up. */
  lemma ComesBack(w: World) returns (events: seq<Event>)
    requires Inv(w) && !NothingComesBack(w)
    ensures CanHappen(w, events) && SignInFree(events) && Later(w, events).tab.cookie.Some?
  {
    var flight := w.tab.refreshing;
    if token :| token in w.tab.arriving {
      events := [SignedIn(token)];
      LaterOfCons(w, SignedIn(token), []);
      assert [SignedIn(token)] + [] == [SignedIn(token)];
    } else if flight.Answered? {
      events := [Deliver];
      LaterOfCons(w, Deliver, []);
      assert [Deliver] + [] == [Deliver];
    } else if w.run.pending == None {
      events := ComesBackRotated(w);
    } else {
      NextKeepsInv(w, Other(Abort));
      var w' := Next(w, Other(Abort));
      hide Inv;
      var rest := ComesBackRotated(w');
      LaterOfCons(w, Other(Abort), rest);
      events := [Other(Abort)] + rest;
    }
  }

  /**
   * When a sign-out lasts until the next sign-in: exactly when nothing is on its way to the tab but refreshes
   * that cannot succeed any more. Otherwise a continuation without a sign-in puts a token back.
   */
  lemma SigningOutLastsIff(w: World)
    requires Inv(w) && w.tab.cookie == None
    ensures NothingComesBack(w) <==>
      forall events :: CanHappen(w, events) && SignInFree(events) ==> Later(w, events).tab.cookie == None
  {
    hide Inv, NothingComesBack, CanHappen, Later, SignInFree;
    if NothingComesBack(w) {
      forall events | CanHappen(w, events) && SignInFree(events) ensures Later(w, events).tab.cookie == None {
        SignedOutForGood(w, events);
      }
    } else {
      var events := ComesBack(w);
    }
  }
}
