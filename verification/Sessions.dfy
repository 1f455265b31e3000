/** Refresh-token families on the server: login starts one, refresh rotates its token, a replay or a
    logout ends it. First as single requests over the tables, then with each request split at its awaits. */
module Sessions {
  import opened BookingTypes

  datatype Role = GUEST | HOST

  datatype User = User(role: Role, password: nat)

  /** A raw token is the position of its row: hashing is injective and tokens are never guessed. */
  datatype RefreshToken = RefreshToken(user: Id, family: Id, expiresAt: Instant, revokedAt: Option<Instant>)

  /** `families` is how many families there are; a new one gets the next number. */
  datatype Tables = Tables(users: map<Id, User>, tokens: seq<RefreshToken>, families: nat)

  /** What a login or a refresh hands out: the access token's claims and the new refresh token. */
  datatype Session = Session(user: Id, role: Role, token: Id, expiresAt: Instant)

  datatype Answer = Granted(session: Session) | INVALID_CREDENTIALS | UNAUTHENTICATED

  predicate InFamily(d: Tables, t: Id, f: Id) {
    t < |d.tokens| && d.tokens[t].family == f
  }

  predicate Live(d: Tables, t: Id) {
    t < |d.tokens| && d.tokens[t].revokedAt.None?
  }

  // ---------------------------------------------------------------------------------------------
  // The writes

  function Issue(d: Tables, user: Id, family: Id, expiresAt: Instant): Tables {
    d.(tokens := d.tokens + [RefreshToken(user, family, expiresAt, None)],
       families := if family < d.families then d.families else family + 1)
  }

  function RevokeIn(tokens: seq<RefreshToken>, f: Id, now: Instant): seq<RefreshToken> {
    seq(|tokens|, i requires 0 <= i < |tokens| =>
      if tokens[i].family == f && tokens[i].revokedAt.None? then tokens[i].(revokedAt := Some(now)) else tokens[i])
  }

  function RevokeFamily(d: Tables, f: Id, now: Instant): Tables {
    d.(tokens := RevokeIn(d.tokens, f, now))
  }

  /** Revoking the presented token and issuing its successor commit together. The update has no guard. */
  function Rotate(d: Tables, t: Id, now: Instant, ttl: nat): Tables
    requires t < |d.tokens|
  {
    var presented := d.tokens[t];
    Issue(d.(tokens := d.tokens[t := presented.(revokedAt := Some(now))]), presented.user, presented.family, now + ttl)
  }

  // ---------------------------------------------------------------------------------------------
  // The requests

  function Login(d: Tables, email: Id, password: nat, now: Instant, ttl: nat): (Tables, Answer) {
    if email !in d.users || d.users[email].password != password then (d, INVALID_CREDENTIALS)
    else (Issue(d, email, d.families, now + ttl), Granted(Session(email, d.users[email].role, |d.tokens|, now + ttl)))
  }

  /** What the presented token turns out to be, in the order the checks are made. */
  datatype Verdict = Unknown | Replayed(family: Id) | Lapsed | Orphaned | Current

  /** The checks on the token row alone, which come before its user is read. */
  function ExamineRow(tokens: seq<RefreshToken>, raw: Option<Id>, now: Instant): Verdict {
    if raw.None? || raw.value >= |tokens| then Unknown
    else
      var presented := tokens[raw.value];
      if presented.revokedAt.Some? then Replayed(presented.family)
      else if presented.expiresAt <= now then Lapsed
      else Current
  }

  function Examine(d: Tables, raw: Option<Id>, now: Instant): Verdict {
    var verdict := ExamineRow(d.tokens, raw, now);
    if verdict.Current? && d.tokens[raw.value].user !in d.users then Orphaned else verdict
  }

  function Refresh(d: Tables, raw: Option<Id>, now: Instant, ttl: nat): (Tables, Answer) {
    match Examine(d, raw, now)
    case Replayed(f) => (RevokeFamily(d, f, now), UNAUTHENTICATED)
    case Current =>
      var user := d.tokens[raw.value].user;
      (Rotate(d, raw.value, now, ttl), Granted(Session(user, d.users[user].role, |d.tokens|, now + ttl)))
    case _ => (d, UNAUTHENTICATED)
  }

  function Logout(d: Tables, raw: Option<Id>, now: Instant): Tables {
    if raw.None? || raw.value >= |d.tokens| then d else RevokeFamily(d, d.tokens[raw.value].family, now)
  }

  // ---------------------------------------------------------------------------------------------
  // Lineages

  /** Only the newest token of a family may be live, and it is live until the family is ended. */
  ghost predicate Lineage(d: Tables, f: Id, ended: bool) {
    && (forall t, u :: InFamily(d, t, f) && InFamily(d, u, f) && t < u ==> !Live(d, t))
    && (ended <==> forall t :: InFamily(d, t, f) ==> !Live(d, t))
  }

  ghost predicate Lineages(d: Tables, ended: set<Id>) {
    && (forall t :: 0 <= t < |d.tokens| ==> d.tokens[t].family < d.families)
    && (forall f :: 0 <= f < d.families ==> Lineage(d, f, f in ended))
    && (forall f :: f in ended ==> f < d.families)
  }

  lemma LoginKeeps(d: Tables, ended: set<Id>, user: Id, expiresAt: Instant)
    requires Lineages(d, ended)
    ensures Lineages(Issue(d, user, d.families, expiresAt), ended)
  {
    var e := Issue(d, user, d.families, expiresAt);
    forall f | 0 <= f < e.families ensures Lineage(e, f, f in ended) {
      if f == d.families {
        assert InFamily(e, |d.tokens|, f) && Live(e, |d.tokens|);
      } else {
        SameFamily(d, e, f, f in ended);
      }
    }
  }

  /** A family whose tokens are untouched, with no new one among them, keeps its lineage. */
  lemma SameFamily(d: Tables, e: Tables, f: Id, ended: bool)
    requires Lineage(d, f, ended)
    requires forall t: Id :: InFamily(e, t, f) <==> InFamily(d, t, f)
    requires forall t: Id :: InFamily(d, t, f) ==> (Live(e, t) <==> Live(d, t))
    ensures Lineage(e, f, ended)
  {}

  lemma RevokeFamilyKeeps(d: Tables, ended: set<Id>, f: Id, now: Instant)
    requires Lineages(d, ended) && f < d.families
    ensures Lineages(RevokeFamily(d, f, now), ended + {f})
  {
    var e := RevokeFamily(d, f, now);
    forall g | 0 <= g < e.families ensures Lineage(e, g, g in ended + {f}) {
      if g != f {
        SameFamily(d, e, g, g in ended);
      }
    }
  }

  lemma RotatedTokens(d: Tables, t: Id, now: Instant, ttl: nat, u: Id, f: Id)
    requires t < |d.tokens|
    ensures var e := Rotate(d, t, now, ttl);
      && (InFamily(e, u, f) <==> InFamily(d, u, f) || (u == |d.tokens| && f == d.tokens[t].family))
      && (Live(e, u) <==> u == |d.tokens| || (Live(d, u) && u != t))
  {}

  lemma RotateOthers(d: Tables, ended: set<Id>, t: Id, now: Instant, ttl: nat)
    requires Lineages(d, ended) && t < |d.tokens|
    ensures var e := Rotate(d, t, now, ttl);
      && e.families == d.families
      && (forall u :: 0 <= u < |e.tokens| ==> e.tokens[u].family < e.families)
      && forall f :: 0 <= f < d.families && f != d.tokens[t].family ==> Lineage(e, f, f in ended)
  {
    var e := Rotate(d, t, now, ttl);
    forall f | 0 <= f < d.families && f != d.tokens[t].family ensures Lineage(e, f, f in ended) {
      forall u: Id ensures InFamily(e, u, f) <==> InFamily(d, u, f) {
        RotatedTokens(d, t, now, ttl, u, f);
      }
      SameFamily(d, e, f, f in ended);
    }
  }

  /** Rotating keeps every lineage if, and only if, the rotated token is still live when it happens. */
  lemma RotateKeepsExactly(d: Tables, ended: set<Id>, t: Id, now: Instant, ttl: nat)
    requires Lineages(d, ended) && t < |d.tokens|
    ensures Lineages(Rotate(d, t, now, ttl), ended) <==> Live(d, t)
  {
    var e, f := Rotate(d, t, now, ttl), d.tokens[t].family;
    RotateOthers(d, ended, t, now, ttl);
    assert InFamily(e, |d.tokens|, f) && Live(e, |d.tokens|);
    assert Lineage(d, f, f in ended);
    if Live(d, t) {
      LiveRotation(d, t, now, ttl, f in ended);
    } else if f !in ended {
      var u: Id :| InFamily(d, u, f) && Live(d, u);
      assert InFamily(e, u, f) && Live(e, u) && u < |d.tokens|;
      assert !Lineage(e, f, f in ended);
    } else {
      assert !Lineage(e, f, f in ended);
    }
  }

  lemma LiveRotation(d: Tables, t: Id, now: Instant, ttl: nat, ended: bool)
    requires t < |d.tokens| && Live(d, t) && Lineage(d, d.tokens[t].family, ended)
    ensures !ended && Lineage(Rotate(d, t, now, ttl), d.tokens[t].family, false)
  {
    var e, f := Rotate(d, t, now, ttl), d.tokens[t].family;
    assert InFamily(d, t, f);
    assert InFamily(e, |d.tokens|, f) && Live(e, |d.tokens|);
    forall u: Id, v: Id | InFamily(e, u, f) && InFamily(e, v, f) && u < v ensures !Live(e, u) {
      RotatedTokens(d, t, now, ttl, u, f);
      assert InFamily(d, u, f);
      assert u < t || u == t || t < u;
    }
  }

  // ---------------------------------------------------------------------------------------------
  // Single requests

  /** A login is granted exactly for an account with that password, and then starts a family of its own with one
      live token, good for the time-to-live from now; a refused one changes nothing. */
  lemma LoginIsExact(d: Tables, email: Id, password: nat, now: Instant, ttl: nat)
    ensures var (e, answer) := Login(d, email, password, now, ttl);
      if email in d.users && d.users[email].password == password then
        var t := |d.tokens|;
        && answer == Granted(Session(email, d.users[email].role, t, now + ttl))
        && e.users == d.users && e.families == d.families + 1
        && e.tokens == d.tokens + [RefreshToken(email, d.families, now + ttl, None)]
        && ((forall u :: 0 <= u < t ==> d.tokens[u].family < d.families) ==>
              forall u :: InFamily(e, u, d.families) <==> u == t)
      else answer == INVALID_CREDENTIALS && e == d
  {}

  /** A refresh is granted exactly for a known token that is neither revoked nor expired and whose user exists. */
  lemma RefreshIsGrantedExactly(d: Tables, raw: Option<Id>, now: Instant, ttl: nat)
    ensures var answer := Refresh(d, raw, now, ttl).1;
      && (answer.Granted? <==>
            && raw.Some? && raw.value < |d.tokens|
            && d.tokens[raw.value].revokedAt.None? && now < d.tokens[raw.value].expiresAt
            && d.tokens[raw.value].user in d.users)
      && (!answer.Granted? ==> answer == UNAUTHENTICATED)
  {}

  /** A granted one revokes the token it was shown and adds its successor, the same user's in the same family,
      good for the time-to-live from now; a refused one changes nothing, unless the token was revoked before. */
  lemma RefreshWritesExactly(d: Tables, raw: Option<Id>, now: Instant, ttl: nat)
    ensures var (e, answer) := Refresh(d, raw, now, ttl);
      if answer.Granted? then
        && raw.Some? && raw.value < |d.tokens|
        && var shown := d.tokens[raw.value];
        && shown.user in d.users
        && answer.session == Session(shown.user, d.users[shown.user].role, |d.tokens|, now + ttl)
        && e.users == d.users
        && e.tokens == d.tokens[raw.value := shown.(revokedAt := Some(now))]
                       + [RefreshToken(shown.user, shown.family, now + ttl, None)]
        && (shown.family < d.families ==> e.families == d.families)
      else (raw.Some? && raw.value < |d.tokens| ==> d.tokens[raw.value].revokedAt.None?) ==> e == d
  {}

  /** A logout with a known token revokes, now, whatever of its family was still live, and leaves every other row
      alone; from then on every token of the family is refused. With any other token it does nothing. */
  lemma LogoutEndsTheFamily(d: Tables, raw: Option<Id>, now: Instant, u: Id, later: Instant, ttl: nat)
    ensures var e := Logout(d, raw, now);
      if raw.Some? && raw.value < |d.tokens| then
        var family := d.tokens[raw.value].family;
        && e.users == d.users && e.families == d.families && |e.tokens| == |d.tokens|
        && (u < |d.tokens| ==>
              e.tokens[u] == if d.tokens[u].family == family && d.tokens[u].revokedAt.None?
                             then d.tokens[u].(revokedAt := Some(now)) else d.tokens[u])
        && (u < |d.tokens| && d.tokens[u].family == family ==>
              && !Live(e, u)
              && Refresh(e, Some(u), later, ttl).1 == UNAUTHENTICATED)
      else e == d
  {
    var e := Logout(d, raw, now);
    if u < |e.tokens| && !Live(e, u) {
      ReplayEndsTheFamily(e, u, later, ttl, u);
    }
  }

  /** A revoked token presented again is refused and takes its whole family with it. */
  lemma ReplayEndsTheFamily(d: Tables, t: Id, now: Instant, ttl: nat, u: Id)
    requires t < |d.tokens| && !Live(d, t)
    ensures var (e, answer) := Refresh(d, Some(t), now, ttl);
      && answer == UNAUTHENTICATED
      && |e.tokens| == |d.tokens|
      && (InFamily(d, u, d.tokens[t].family) ==> !Live(e, u))
      && (u < |d.tokens| && !InFamily(d, u, d.tokens[t].family) ==> e.tokens[u] == d.tokens[u])
  {}

  /** A token works once: used again, at any later time, it ends the session it had been exchanged for. */
  lemma TokensWorkOnce(d: Tables, t: Id, now: Instant, later: Instant, ttl: nat)
    requires Refresh(d, Some(t), now, ttl).1.Granted?
    ensures var (once, first) := Refresh(d, Some(t), now, ttl);
      var (twice, second) := Refresh(once, Some(t), later, ttl);
      && Live(once, first.session.token) && !Live(once, t)
      && once.tokens[first.session.token].family == d.tokens[t].family
      && second == UNAUTHENTICATED
      && !Live(twice, first.session.token)
      && Refresh(twice, Some(first.session.token), later, ttl).1 == UNAUTHENTICATED
  {
    var (once, first) := Refresh(d, Some(t), now, ttl);
    ReplayEndsTheFamily(once, t, later, ttl, first.session.token);
  }

  // ---------------------------------------------------------------------------------------------
  // Requests split at their awaits

  datatype Handler = ReadingUser(token: Id) | Rotating(token: Id) | Revoking(family: Id)

  /** `ended` records the families a replay or a logout has revoked. */
  datatype State = State(clock: Instant, ttl: nat, tables: Tables, ended: set<Id>, handlers: multiset<Handler>)

  datatype Step =
    | Tick(now: Instant)
    | Register(email: Id, user: User)
    | LoginAtOnce(email: Id, password: nat)
    | RefreshLookup(raw: Option<Id>)
    | RefreshReadUser(token: Id)
    | RefreshRotate(token: Id)
    | LogoutLookup(raw: Option<Id>)
    | RevokeAll(family: Id)
    | Crash(handler: Handler)

  function Init(clock: Instant, ttl: nat): State {
    State(clock, ttl, Tables(map[], [], 0), {}, multiset{})
  }

  function Enter(s: State, h: Handler): State {
    s.(handlers := s.handlers + multiset{h})
  }

  function Leave(s: State, h: Handler): State {
    s.(handlers := s.handlers - multiset{h})
  }

  function Lookup(s: State, raw: Option<Id>): State {
    match ExamineRow(s.tables.tokens, raw, s.clock)
    case Replayed(f) => Enter(s, Revoking(f))
    case Current => Enter(s, ReadingUser(raw.value))
    case _ => s
  }

  function ReadUser(s: State, t: Id): State {
    if ReadingUser(t) !in s.handlers || t >= |s.tables.tokens| then s
    else if s.tables.tokens[t].user !in s.tables.users then Leave(s, ReadingUser(t))
    else Enter(Leave(s, ReadingUser(t)), Rotating(t))
  }

  function RotateNow(s: State, t: Id): State {
    if Rotating(t) !in s.handlers || t >= |s.tables.tokens| then s
    else Leave(s, Rotating(t)).(tables := Rotate(s.tables, t, s.clock, s.ttl))
  }

  function RevokeNow(s: State, f: Id): State {
    if Revoking(f) !in s.handlers then s
    else Leave(s, Revoking(f)).(tables := RevokeFamily(s.tables, f, s.clock), ended := s.ended + {f})
  }

  function Apply(s: State, step: Step): State {
    match step
    case Tick(now) => if s.clock <= now then s.(clock := now) else s
    case Register(email, user) =>
      if email in s.tables.users then s else s.(tables := s.tables.(users := s.tables.users[email := user]))
    case LoginAtOnce(email, password) => s.(tables := Login(s.tables, email, password, s.clock, s.ttl).0)
    case RefreshLookup(raw) => Lookup(s, raw)
    case RefreshReadUser(t) => ReadUser(s, t)
    case RefreshRotate(t) => RotateNow(s, t)
    case LogoutLookup(raw) =>
      if raw.None? || raw.value >= |s.tables.tokens| then s else Enter(s, Revoking(s.tables.tokens[raw.value].family))
    case RevokeAll(f) => RevokeNow(s, f)
    case Crash(h) => if h in s.handlers then Leave(s, h) else s
  }

  function Run(s: State, steps: seq<Step>): State
    decreases |steps|
  {
    if steps == [] then s else Apply(Run(s, steps[..|steps| - 1]), steps[|steps| - 1])
  }

  /** A rotation that runs after its token has been revoked by someone else. */
  predicate Stale(s: State, step: Step) {
    && step.RefreshRotate? && Rotating(step.token) in s.handlers
    && step.token < |s.tables.tokens| && !Live(s.tables, step.token)
  }

  ghost predicate NeverStale(s: State, steps: seq<Step>) {
    forall n :: 0 <= n < |steps| ==> !Stale(Run(s, steps[..n]), steps[n])
  }

  ghost predicate Inv(s: State) {
    && Lineages(s.tables, s.ended)
    && (forall h :: h in s.handlers && h.Revoking? ==> h.family < s.tables.families)
  }

  lemma UsersDoNotMatter(d: Tables, users: map<Id, User>, ended: set<Id>)
    requires Lineages(d, ended)
    ensures Lineages(d.(users := users), ended)
  {
    var e := d.(users := users);
    forall f | 0 <= f < e.families ensures Lineage(e, f, f in ended) {
      SameFamily(d, e, f, f in ended);
    }
  }

  lemma LookupKeeps(s: State, raw: Option<Id>)
    requires Inv(s)
    ensures Inv(Lookup(s, raw))
  {
    assert Lookup(s, raw).tables == s.tables && Lookup(s, raw).ended == s.ended;
  }

  lemma LogoutLookupKeeps(s: State, raw: Option<Id>)
    requires Inv(s)
    ensures Inv(Apply(s, LogoutLookup(raw)))
  {
    var t := Apply(s, LogoutLookup(raw));
    assert t.tables == s.tables && t.ended == s.ended;
  }

  lemma ReadUserKeeps(s: State, t: Id)
    requires Inv(s)
    ensures Inv(ReadUser(s, t))
  {
    assert ReadUser(s, t).tables == s.tables && ReadUser(s, t).ended == s.ended;
  }

  lemma CrashKeeps(s: State, h: Handler)
    requires Inv(s)
    ensures Inv(Leave(s, h))
  {}

  lemma AccountKeeps(s: State, step: Step)
    requires Inv(s) && (step.Register? || step.LoginAtOnce?)
    ensures Inv(Apply(s, step))
  {
    match step
    case Register(email, user) => UsersDoNotMatter(s.tables, s.tables.users[email := user], s.ended);
    case LoginAtOnce(email, _) => LoginKeeps(s.tables, s.ended, email, s.clock + s.ttl);
  }

  lemma RotateNowKeepsExactly(s: State, t: Id)
    requires Inv(s)
    ensures Inv(RotateNow(s, t)) <==> !Stale(s, RefreshRotate(t))
  {
    if Rotating(t) in s.handlers && t < |s.tables.tokens| {
      RotateKeepsExactly(s.tables, s.ended, t, s.clock, s.ttl);
    }
  }

  lemma RevokeNowKeeps(s: State, f: Id)
    requires Inv(s)
    ensures Inv(RevokeNow(s, f))
  {
    if Revoking(f) in s.handlers {
      RevokeFamilyKeeps(s.tables, s.ended, f, s.clock);
    }
  }

  lemma AwaitKeeps(s: State, step: Step)
    requires Inv(s)
    requires step.Tick? || step.RefreshLookup? || step.RefreshReadUser? || step.LogoutLookup? || step.Crash?
    ensures Inv(Apply(s, step))
  {
    match step
    case RefreshLookup(raw) => LookupKeeps(s, raw);
    case LogoutLookup(raw) => LogoutLookupKeeps(s, raw);
    case RefreshReadUser(t) => ReadUserKeeps(s, t);
    case Crash(h) => CrashKeeps(s, h);
    case Tick(_) =>
  }

  /** Lineages are broken by one thing only: a stale rotation. */
  lemma StepKeepsExactly(s: State, step: Step)
    requires Inv(s)
    ensures Inv(Apply(s, step)) <==> !Stale(s, step)
  {
    if step.RefreshRotate? {
      RotateNowKeepsExactly(s, step.token);
    } else if step.RevokeAll? {
      RevokeNowKeeps(s, step.family);
    } else if step.Register? || step.LoginAtOnce? {
      AccountKeeps(s, step);
    } else {
      AwaitKeeps(s, step);
    }
  }

  lemma NeverStaleSoFar(s: State, steps: seq<Step>)
    requires steps != [] && NeverStale(s, steps)
    ensures var last := |steps| - 1;
      NeverStale(s, steps[..last]) && !Stale(Run(s, steps[..last]), steps[last])
  {
    var last := |steps| - 1;
    forall n | 0 <= n < last ensures !Stale(Run(s, steps[..last][..n]), steps[..last][n]) {
      assert steps[..last][..n] == steps[..n];
    }
  }

  lemma {:induction false} RunKeeps(s: State, steps: seq<Step>)
    requires Inv(s) && NeverStale(s, steps)
    ensures Inv(Run(s, steps))
    decreases |steps|
  {
    if steps != [] {
      var last := |steps| - 1;
      NeverStaleSoFar(s, steps);
      RunKeeps(s, steps[..last]);
      StepKeepsExactly(Run(s, steps[..last]), steps[last]);
    }
  }

  /** On every run without a stale rotation, a family has at most one live token, that token is the
      newest issued in it, and there is none exactly when a replay or a logout has ended the family. */
  lemma OneLiveTokenPerFamily(clock: Instant, ttl: nat, steps: seq<Step>, f: Id)
    requires NeverStale(Init(clock, ttl), steps)
    ensures var s := Run(Init(clock, ttl), steps);
      && (forall t, u :: InFamily(s.tables, t, f) && InFamily(s.tables, u, f) && Live(s.tables, t) ==> u <= t)
      && (forall t, u ::
            InFamily(s.tables, t, f) && InFamily(s.tables, u, f) && Live(s.tables, t) && Live(s.tables, u) ==> t == u)
      && (f < s.tables.families ==> (f in s.ended <==> forall t :: InFamily(s.tables, t, f) ==> !Live(s.tables, t)))
  {
    RunKeeps(Init(clock, ttl), steps);
    var s := Run(Init(clock, ttl), steps);
    if f < s.tables.families {
      assert Lineage(s.tables, f, f in s.ended);
    }
  }

  lemma {:induction false} EndedStays(s: State, steps: seq<Step>)
    ensures s.ended <= Run(s, steps).ended
    ensures s.tables.families <= Run(s, steps).tables.families
    decreases |steps|
  {
    if steps != [] {
      EndedStays(s, steps[..|steps| - 1]);
      EndedGrows(Run(s, steps[..|steps| - 1]), steps[|steps| - 1]);
    }
  }

  /** An account, once registered, keeps its role and its password whatever happens: registering the same email
      again does not replace it. */
  lemma {:induction false} AccountsStay(s: State, steps: seq<Step>, email: Id)
    requires email in s.tables.users
    ensures var users := Run(s, steps).tables.users; email in users && users[email] == s.tables.users[email]
    decreases |steps|
  {
    if steps != [] {
      AccountsStay(s, steps[..|steps| - 1], email);
      AccountStays(Run(s, steps[..|steps| - 1]), steps[|steps| - 1], email);
    }
  }

  lemma AccountStays(s: State, step: Step, email: Id)
    requires email in s.tables.users
    ensures var users := Apply(s, step).tables.users; email in users && users[email] == s.tables.users[email]
  {}

  lemma EndedGrows(s: State, step: Step)
    ensures s.ended <= Apply(s, step).ended
    ensures s.tables.families <= Apply(s, step).tables.families
  {}

  /** An ended family is over: whatever happens later, every token it ever had is refused. */
  lemma EndedFamiliesNeverRefresh(s: State, steps: seq<Step>, f: Id, t: Id, now: Instant)
    requires Inv(s) && NeverStale(s, steps) && f in s.ended && InFamily(Run(s, steps).tables, t, f)
    ensures !Live(Run(s, steps).tables, t)
    ensures Refresh(Run(s, steps).tables, Some(t), now, s.ttl).1 == UNAUTHENTICATED
  {
    RunKeeps(s, steps);
    EndedStays(s, steps);
    assert Lineage(Run(s, steps).tables, f, f in Run(s, steps).ended);
  }

  // ---------------------------------------------------------------------------------------------
  // A refresh that runs without interruption is never stale

  function RefreshSteps(s: State, raw: Option<Id>): seq<Step> {
    match Examine(s.tables, raw, s.clock)
    case Replayed(f) => [RefreshLookup(raw), RevokeAll(f)]
    case Current => [RefreshLookup(raw), RefreshReadUser(raw.value), RefreshRotate(raw.value)]
    case Orphaned => [RefreshLookup(raw), RefreshReadUser(raw.value)]
    case _ => [RefreshLookup(raw)]
  }

  ghost predicate Reaches(s: State, steps: seq<Step>, t: State) {
    Run(s, steps) == t && NeverStale(s, steps)
  }

  lemma OneMore(s: State, steps: seq<Step>, t: State, a: Step)
    requires Reaches(s, steps, t) && !Stale(t, a)
    ensures Reaches(s, steps + [a], Apply(t, a))
  {
    var more := steps + [a];
    assert more[..|steps|] == steps;
    assert forall n :: 0 <= n <= |steps| ==> more[..n] == steps[..n];
  }

  lemma FirstStep(s: State, a: Step)
    requires !Stale(s, a)
    ensures Reaches(s, [a], Apply(s, a))
  {
    assert [a][..0] == [];
    assert Run(s, [a][..0]) == s;
  }

  lemma LooksUp(s: State, raw: Option<Id>)
    ensures Reaches(s, [RefreshLookup(raw)], Lookup(s, raw))
  {
    FirstStep(s, RefreshLookup(raw));
  }

  lemma UninterruptedReplay(s: State, raw: Option<Id>, f: Id)
    requires Examine(s.tables, raw, s.clock) == Replayed(f)
    ensures Reaches(s, [RefreshLookup(raw), RevokeAll(f)], RevokeNow(Enter(s, Revoking(f)), f))
  {
    LooksUp(s, raw);
    OneMore(s, [RefreshLookup(raw)], Enter(s, Revoking(f)), RevokeAll(f));
    assert [RefreshLookup(raw)] + [RevokeAll(f)] == [RefreshLookup(raw), RevokeAll(f)];
  }

  lemma FindsCurrent(s: State, raw: Option<Id>)
    requires var v := Examine(s.tables, raw, s.clock); v.Current? || v.Orphaned?
    ensures raw.Some? && Lookup(s, raw) == Enter(s, ReadingUser(raw.value))
  {}

  lemma ReadsUser(s: State, raw: Option<Id>)
    requires var v := Examine(s.tables, raw, s.clock); v.Current? || v.Orphaned?
    ensures Reaches(s, [RefreshLookup(raw), RefreshReadUser(raw.value)],
                    ReadUser(Enter(s, ReadingUser(raw.value)), raw.value))
  {
    LooksUp(s, raw);
    FindsCurrent(s, raw);
    OneMore(s, [RefreshLookup(raw)], Enter(s, ReadingUser(raw.value)), RefreshReadUser(raw.value));
    assert [RefreshLookup(raw)] + [RefreshReadUser(raw.value)] == [RefreshLookup(raw), RefreshReadUser(raw.value)];
  }

  lemma UninterruptedRotation(s: State, raw: Option<Id>)
    requires Examine(s.tables, raw, s.clock).Current?
    ensures Reaches(s, RefreshSteps(s, raw),
                    RotateNow(ReadUser(Enter(s, ReadingUser(raw.value)), raw.value), raw.value))
  {
    var t := raw.value;
    ReadsUser(s, raw);
    OneMore(s, [RefreshLookup(raw), RefreshReadUser(t)], ReadUser(Enter(s, ReadingUser(t)), t), RefreshRotate(t));
    assert [RefreshLookup(raw), RefreshReadUser(t)] + [RefreshRotate(t)] == RefreshSteps(s, raw);
  }

  /** Run on its own, a refresh does to the tables what the one request does, and is never stale. */
  lemma UninterruptedRefresh(s: State, raw: Option<Id>)
    ensures Run(s, RefreshSteps(s, raw)).tables == Refresh(s.tables, raw, s.clock, s.ttl).0
    ensures NeverStale(s, RefreshSteps(s, raw))
  {
    match Examine(s.tables, raw, s.clock)
    case Replayed(f) => UninterruptedReplay(s, raw, f);
    case Current => UninterruptedRotation(s, raw);
    case Orphaned => ReadsUser(s, raw);
    case Unknown => LooksUp(s, raw);
    case Lapsed => LooksUp(s, raw);
  }

  function LogoutSteps(s: State, raw: Option<Id>): seq<Step> {
    if raw.None? || raw.value >= |s.tables.tokens| then [LogoutLookup(raw)]
    else [LogoutLookup(raw), RevokeAll(s.tables.tokens[raw.value].family)]
  }

  lemma LogsOut(s: State, t: Id)
    requires t < |s.tables.tokens|
    ensures var f := s.tables.tokens[t].family;
      Reaches(s, [LogoutLookup(Some(t)), RevokeAll(f)], RevokeNow(Enter(s, Revoking(f)), f))
  {
    var f := s.tables.tokens[t].family;
    FirstStep(s, LogoutLookup(Some(t)));
    OneMore(s, [LogoutLookup(Some(t))], Enter(s, Revoking(f)), RevokeAll(f));
    assert [LogoutLookup(Some(t))] + [RevokeAll(f)] == [LogoutLookup(Some(t)), RevokeAll(f)];
  }

  /** So does a logout, and it puts the family on record as ended. */
  lemma UninterruptedLogout(s: State, raw: Option<Id>)
    ensures var t := Run(s, LogoutSteps(s, raw));
      && t.tables == Logout(s.tables, raw, s.clock)
      && (raw.Some? && raw.value < |s.tables.tokens| ==> s.tables.tokens[raw.value].family in t.ended)
    ensures NeverStale(s, LogoutSteps(s, raw))
  {
    FirstStep(s, LogoutLookup(raw));
    if raw.Some? && raw.value < |s.tables.tokens| {
      LogsOut(s, raw.value);
    }
  }

  // ---------------------------------------------------------------------------------------------
  // Overlapping refreshes

  function ForkSteps(t: Id): seq<Step> {
    [RefreshLookup(Some(t)), RefreshLookup(Some(t)), RefreshReadUser(t), RefreshReadUser(t)]
  }

  function BothRotating(s: State, t: Id): State {
    ReadUser(ReadUser(Enter(Enter(s, ReadingUser(t)), ReadingUser(t)), t), t)
  }

  lemma BothAreRotating(s: State, t: Id)
    requires Examine(s.tables, Some(t), s.clock).Current?
    ensures BothRotating(s, t).tables == s.tables && BothRotating(s, t).handlers[Rotating(t)] >= 2
  {}

  lemma BothLookUp(s: State, t: Id)
    requires Examine(s.tables, Some(t), s.clock).Current?
    ensures Reaches(s, [RefreshLookup(Some(t)), RefreshLookup(Some(t))],
                    Enter(Enter(s, ReadingUser(t)), ReadingUser(t)))
  {
    var lookup, h := RefreshLookup(Some(t)), ReadingUser(t);
    LooksUp(s, Some(t));
    OneMore(s, [lookup], Enter(s, h), lookup);
    assert [lookup] + [lookup] == [lookup, lookup];
  }

  lemma OverlapReaches(s: State, t: Id)
    requires Examine(s.tables, Some(t), s.clock).Current?
    ensures Reaches(s, ForkSteps(t), BothRotating(s, t))
  {
    var lookup, read, h := RefreshLookup(Some(t)), RefreshReadUser(t), ReadingUser(t);
    BothLookUp(s, t);
    OneMore(s, [lookup, lookup], Enter(Enter(s, h), h), read);
    assert [lookup, lookup] + [read] == [lookup, lookup, read];
    OneMore(s, [lookup, lookup, read], ReadUser(Enter(Enter(s, h), h), t), read);
    assert [lookup, lookup, read] + [read] == ForkSteps(t);
  }

  /** Two rotations of one token, the second of them stale, leave the family with two live tokens. */
  ghost predicate Forks(s: State, t: Id, n: Id, f: Id) {
    var once := RotateNow(s, t);
    var twice := RotateNow(once, t);
    && Stale(once, RefreshRotate(t))
    && InFamily(twice.tables, n, f) && Live(twice.tables, n)
    && InFamily(twice.tables, n + 1, f) && Live(twice.tables, n + 1)
  }

  lemma TwoRotations(s: State, t: Id)
    requires Live(s.tables, t) && s.handlers[Rotating(t)] >= 2
    ensures Forks(s, t, |s.tables.tokens|, s.tables.tokens[t].family)
  {}

  lemma BothRotatingForks(s: State, t: Id)
    requires Examine(s.tables, Some(t), s.clock).Current?
    ensures Forks(BothRotating(s, t), t, |s.tables.tokens|, s.tables.tokens[t].family)
  {
    BothAreRotating(s, t);
    TwoRotations(BothRotating(s, t), t);
  }

  /** From any state, two overlapping refreshes of one usable token both succeed and leave its family
      with two live tokens: the rotation does not check that the token is still live. */
  lemma OverlappingRefreshesFork(s: State, t: Id)
    requires Examine(s.tables, Some(t), s.clock).Current?
    ensures Forks(Run(s, ForkSteps(t)), t, |s.tables.tokens|, s.tables.tokens[t].family)
  {
    OverlapReaches(s, t);
    BothRotatingForks(s, t);
  }

  /** A refresh that has passed its checks, then a logout of the same family start to end, then the rotation. */
  function RefreshAroundLogout(s: State, t: Id): State
    requires t < |s.tables.tokens|
  {
    var f := s.tables.tokens[t].family;
    var checked := ReadUser(Enter(s, ReadingUser(t)), t);
    RotateNow(RevokeNow(Enter(checked, Revoking(f)), f), t)
  }

  lemma RotatedAfterRevoking(d: Tables, t: Id, now: Instant, ttl: nat)
    requires Examine(d, Some(t), now).Current? && ttl > 0
    ensures var f, n := d.tokens[t].family, |d.tokens|;
      && |RevokeFamily(d, f, now).tokens| == n
      && var e := Rotate(RevokeFamily(d, f, now), t, now, ttl);
         InFamily(e, n, f) && Live(e, n) && Examine(e, Some(n), now).Current?
  {}

  lemma CheckedHandlers(s: State, t: Id)
    requires Examine(s.tables, Some(t), s.clock).Current?
    ensures var checked := ReadUser(Enter(s, ReadingUser(t)), t);
      && Rotating(t) in checked.handlers
      && checked == s.(handlers := checked.handlers)
  {}

  lemma EndedHandlers(s: State, t: Id, f: Id)
    requires Rotating(t) in s.handlers
    ensures var ended := RevokeNow(Enter(s, Revoking(f)), f);
      && Rotating(t) in ended.handlers
      && ended == s.(tables := RevokeFamily(s.tables, f, s.clock), ended := s.ended + {f}, handlers := ended.handlers)
  {}

  /** The logout is undone: the family it ended has a live token again, which the server will accept. */
  lemma LogoutDuringRefreshIsUndone(s: State, t: Id)
    requires Examine(s.tables, Some(t), s.clock).Current? && s.ttl > 0
    ensures var u, n, f := RefreshAroundLogout(s, t), |s.tables.tokens|, s.tables.tokens[t].family;
      && f in u.ended && InFamily(u.tables, n, f) && Live(u.tables, n)
      && Examine(u.tables, Some(n), u.clock).Current?
  {
    var f := s.tables.tokens[t].family;
    var checked := ReadUser(Enter(s, ReadingUser(t)), t);
    CheckedHandlers(s, t);
    EndedHandlers(checked, t, f);
    RotatedAfterRevoking(s.tables, t, s.clock, s.ttl);
  }

  // ---------------------------------------------------------------------------------------------
  // The services

  /** The users and refresh_tokens tables. */
  class Database {
    var users: map<Id, User>
    var tokens: seq<RefreshToken>
    var families: nat

    constructor ()
      ensures AsTables() == Tables(map[], [], 0)
    {
      users, tokens, families := map[], [], 0;
    }

    function AsTables(): Tables
      reads this
    {
      Tables(users, tokens, families)
    }

    /** `updateMany` over the family's rows that are not revoked yet. */
    method RevokeAll(family: Id, now: Instant)
      modifies this`tokens
      ensures AsTables() == RevokeFamily(old(AsTables()), family, now)
    {
      for i := 0 to |tokens|
        invariant |tokens| == |old(tokens)|
        invariant forall k :: 0 <= k < i ==> tokens[k] == RevokeIn(old(tokens), family, now)[k]
        invariant forall k :: i <= k < |tokens| ==> tokens[k] == old(tokens)[k]
      {
        if tokens[i].family == family && tokens[i].revokedAt.None? {
          tokens := tokens[i := tokens[i].(revokedAt := Some(now))];
        }
      }
    }
  }

  class TokenService {
    const db: Database
    const refreshTtlMs: nat

    constructor (db: Database, refreshTtlMs: nat)
      ensures this.db == db && this.refreshTtlMs == refreshTtlMs
    {
      this.db, this.refreshTtlMs := db, refreshTtlMs;
    }

    /** Without a family the token starts one of its own. */
    method IssueRefreshToken(user: Id, family: Option<Id>, now: Instant) returns (token: Id, expiresAt: Instant)
      modifies db
      ensures token == |old(db.tokens)| && expiresAt == now + refreshTtlMs
      ensures db.AsTables()
           == Issue(old(db.AsTables()), user, if family.Some? then family.value else old(db.families), expiresAt)
    {
      var lineage := if family.Some? then family.value else db.families;
      token, expiresAt := |db.tokens|, now + refreshTtlMs;
      db.tokens := db.tokens + [RefreshToken(user, lineage, expiresAt, None)];
      if lineage >= db.families {
        db.families := lineage + 1;
      }
    }
  }

  class AuthService {
    const db: Database
    const issuer: TokenService

    ghost predicate Valid() {
      issuer.db == db
    }

    constructor (db: Database, issuer: TokenService)
      requires issuer.db == db
      ensures this.db == db && this.issuer == issuer && Valid()
    {
      this.db, this.issuer := db, issuer;
    }

    method LogIn(email: Id, password: nat, now: Instant) returns (answer: Answer)
      requires Valid()
      modifies db
      ensures (db.AsTables(), answer) == Login(old(db.AsTables()), email, password, now, issuer.refreshTtlMs)
      ensures answer.Granted? <==> email in db.users && db.users[email].password == password
    {
      if email !in db.users || db.users[email].password != password {
        return INVALID_CREDENTIALS;
      }
      var role := db.users[email].role;
      var token, expiresAt := issuer.IssueRefreshToken(email, None, now);
      return Granted(Session(email, role, token, expiresAt));
    }

    method RefreshSession(raw: Option<Id>, now: Instant) returns (answer: Answer)
      requires Valid()
      modifies db
      ensures (db.AsTables(), answer) == Refresh(old(db.AsTables()), raw, now, issuer.refreshTtlMs)
    {
      if raw.None? || raw.value >= |db.tokens| {
        return UNAUTHENTICATED;
      }
      var presented := db.tokens[raw.value];
      if presented.revokedAt.Some? {
        db.RevokeAll(presented.family, now);
        return UNAUTHENTICATED;
      }
      if presented.expiresAt <= now || presented.user !in db.users {
        return UNAUTHENTICATED;
      }
      var role := db.users[presented.user].role;
      db.tokens := db.tokens[raw.value := presented.(revokedAt := Some(now))];
      var token, expiresAt := issuer.IssueRefreshToken(presented.user, Some(presented.family), now);
      return Granted(Session(presented.user, role, token, expiresAt));
    }

    method LogOut(raw: Option<Id>, now: Instant)
      requires Valid()
      modifies db
      ensures db.AsTables() == Logout(old(db.AsTables()), raw, now)
      ensures raw.Some? && raw.value < |db.tokens| ==>
                forall t :: InFamily(db.AsTables(), t, db.tokens[raw.value].family) ==> !Live(db.AsTables(), t)
    {
      if raw.Some? && raw.value < |db.tokens| {
        db.RevokeAll(db.tokens[raw.value].family, now);
      }
    }
  }
}
