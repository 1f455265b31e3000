/** One browser tab against the session server, every request there split at its awaits: any number of calls
    meet a 401 at once, share a single refresh, and retry once, without ever presenting a token the server has
    already rotated, or having it rotated twice. */
module SingleFlight {
  import opened BookingTypes
  import S = Sessions

  const UNAUTHORIZED: nat := 401

  /** Where a 401 is the answer rather than an expired access token. */
  const CREDENTIAL_PATHS: set<string> := {"/auth/login", "/auth/register", "/auth/refresh"}

  // ---------------------------------------------------------------------------------------------
  // The tab

  /** `sends` counts the requests the call has put on the wire. */
  datatype Call =
    | Sent(path: string, token: Option<S.Session>, retryOnUnauthorized: bool, sends: nat)
    | AwaitingRefresh(path: string, sends: nat)
    | Done(path: string, status: nat, sends: nat)

  datatype Tab = Tab(accessToken: Option<S.Session>, refreshInFlight: bool, calls: seq<Call>)

  function ApiFetch(tab: Tab, path: string): Tab {
    tab.(calls := tab.calls + [Sent(path, tab.accessToken, true, 1)])
  }

  predicate NeedsRefresh(call: Call, status: nat) {
    call.Sent? && status == UNAUTHORIZED && call.retryOnUnauthorized && call.path !in CREDENTIAL_PATHS
  }

  /** The first 401 of any call but a sign-in, a registration or a refresh. */
  lemma RefreshIsNeededExactly(call: Call, status: nat)
    ensures NeedsRefresh(call, status) <==>
      && status == 401 && call.Sent? && call.retryOnUnauthorized
      && call.path !in ["/auth/login", "/auth/register", "/auth/refresh"]
  {}

  /** A response arrives: a first 401 waits for the refresh, starting one if none is in flight. */
  function Answered(tab: Tab, i: nat, status: nat): Tab {
    if i >= |tab.calls| || !tab.calls[i].Sent? then tab
    else
      var call := tab.calls[i];
      if NeedsRefresh(call, status) then
        tab.(calls := tab.calls[i := AwaitingRefresh(call.path, call.sends)], refreshInFlight := true)
      else tab.(calls := tab.calls[i := Done(call.path, status, call.sends)])
  }

  /** What the shared refresh means for one call: try once more, or report the 401 it had. */
  function Resumed(call: Call, granted: Option<S.Session>): Call {
    if !call.AwaitingRefresh? then call
    else if granted.Some? then Sent(call.path, granted, false, call.sends + 1)
    else Done(call.path, UNAUTHORIZED, call.sends)
  }

  function ResumedAll(calls: seq<Call>, granted: Option<S.Session>): seq<Call> {
    seq(|calls|, i requires 0 <= i < |calls| => Resumed(calls[i], granted))
  }

  /** The refresh is over, whichever way: the token is replaced and everyone waiting goes on. */
  function RefreshDone(tab: Tab, granted: Option<S.Session>): Tab {
    Tab(granted, false, ResumedAll(tab.calls, granted))
  }

  /** A response ends its call with its status, or makes it wait, with a refresh in flight; no other call moves. */
  lemma ResponsesAreHandledExactly(tab: Tab, i: nat, status: nat, j: nat)
    requires i < |tab.calls| && tab.calls[i].Sent? && j < |tab.calls|
    ensures var t, call := Answered(tab, i, status), tab.calls[i];
      && |t.calls| == |tab.calls| && t.accessToken == tab.accessToken
      && t.refreshInFlight == (tab.refreshInFlight || NeedsRefresh(call, status))
      && t.calls[j] == (if j != i then tab.calls[j]
                        else if NeedsRefresh(call, status) then AwaitingRefresh(call.path, call.sends)
                        else Done(call.path, status, call.sends))
  {}

  /** The end of a refresh replaces the access token, by none if it failed, and moves exactly the calls that waited:
      each is sent once more with the new token and will not wait again, or ends with the 401 it had. */
  lemma RefreshSettlesEveryone(tab: Tab, granted: Option<S.Session>, j: nat)
    requires j < |tab.calls|
    ensures var t, call := RefreshDone(tab, granted), tab.calls[j];
      && |t.calls| == |tab.calls| && t.accessToken == granted && !t.refreshInFlight
      && t.calls[j] == (if !call.AwaitingRefresh? then call
                        else if granted.Some? then Sent(call.path, granted, false, call.sends + 1)
                        else Done(call.path, 401, call.sends))
  {}

  // ---------------------------------------------------------------------------------------------
  // The tab, its cookie, the wire and the server

  /** A refresh on its way: to the server, back with the answer, or having its body read. */
  datatype Message = Request(presented: Option<Id>) | Response(answer: S.Answer) | Body(answer: S.Answer)

  /** `server` is the session server with everyone else's requests, `serving` are this tab's at the same server. */
  datatype State = State(
    server: S.State,
    serving: multiset<S.Handler>,
    cookie: Option<Id>,
    tab: Tab,
    network: multiset<Message>)

  /** `Lookup` and `Advance` are the server at work on the tab's refresh, `Die` is its handler dying there.
      `Abandon` is the connection breaking while that handler goes on; `LoseResponse` is it breaking later, or
      the handler dying between its rotation and its answer. */
  datatype Step =
    | Fetch(path: string)
    | Respond(call: nat, status: nat)
    | RestoreSession
    | Lookup(presented: Option<Id>)
    | Advance(handler: S.Handler)
    | Die(handler: S.Handler)
    | Abandon(handler: S.Handler)
    | Arrive(answer: S.Answer)
    | Finish(answer: S.Answer, readable: bool)
    | LoseRequest(presented: Option<Id>)
    | LoseResponse(answer: S.Answer)
    | Other(step: S.Step)

  /** The browser stops sending a cookie that has expired. */
  function CookieToSend(s: State): Option<Id> {
    var tokens := s.server.tables.tokens;
    if s.cookie.Some? && s.cookie.value < |tokens| && tokens[s.cookie.value].expiresAt <= s.server.clock
    then None else s.cookie
  }

  /** A refresh carries the cookie, unless there is none or it has expired. */
  lemma CookiesAreSentExactly(s: State)
    ensures var tokens, sent := s.server.tables.tokens, CookieToSend(s);
      && (sent.Some? ==> sent == s.cookie)
      && (sent.None? <==>
            s.cookie.None?
            || (s.cookie.value < |tokens| && tokens[s.cookie.value].expiresAt <= s.server.clock))
  {}

  /** Starting a refresh while one is in flight sends nothing. */
  function SendRefresh(s: State, starts: bool): State {
    if starts then s.(network := s.network + multiset{Request(CookieToSend(s))}) else s
  }

  function Granted(answer: S.Answer): Option<S.Session> {
    if answer.Granted? then Some(answer.session) else None
  }

  /** The tab's request reaches the server, which looks its token up. */
  function LookUp(s: State, p: Option<Id>): State {
    if Request(p) !in s.network then s
    else
      var rest := s.network - multiset{Request(p)};
      match S.ExamineRow(s.server.tables.tokens, p, s.server.clock)
      case Replayed(f) => s.(network := rest, serving := s.serving + multiset{S.Revoking(f)})
      case Current => s.(network := rest, serving := s.serving + multiset{S.ReadingUser(p.value)})
      case _ => s.(network := rest + multiset{Response(S.UNAUTHENTICATED)})
  }

  /** The handler is done and its answer is on its way. */
  function Answer(s: State, h: S.Handler, answer: S.Answer): State {
    s.(serving := s.serving - multiset{h}, network := s.network + multiset{Response(answer)})
  }

  function UserRead(s: State, t: Id): State {
    var h, d := S.ReadingUser(t), s.server.tables;
    if h !in s.serving || t >= |d.tokens| then s
    else if d.tokens[t].user !in d.users then Answer(s, h, S.UNAUTHENTICATED)
    else s.(serving := s.serving - multiset{h} + multiset{S.Rotating(t)})
  }

  /** What a rotation hands out. */
  function NewSession(server: S.State, t: Id): S.Session
    requires t < |server.tables.tokens| && server.tables.tokens[t].user in server.tables.users
  {
    var user := server.tables.tokens[t].user;
    S.Session(user, server.tables.users[user].role, |server.tables.tokens|, server.clock + server.ttl)
  }

  function Rotated(s: State, t: Id): State {
    var h, d := S.Rotating(t), s.server.tables;
    if h !in s.serving || t >= |d.tokens| || d.tokens[t].user !in d.users then s
    else
      Answer(s, h, S.Granted(NewSession(s.server, t))).(
        server := s.server.(tables := S.Rotate(d, t, s.server.clock, s.server.ttl)))
  }

  function Revoked(s: State, f: Id): State {
    var h := S.Revoking(f);
    if h !in s.serving then s
    else
      Answer(s, h, S.UNAUTHENTICATED).(
        server := s.server.(tables := S.RevokeFamily(s.server.tables, f, s.server.clock),
                            ended := s.server.ended + {f}))
  }

  function Advanced(s: State, h: S.Handler): State {
    match h
    case ReadingUser(t) => UserRead(s, t)
    case Rotating(t) => Rotated(s, t)
    case Revoking(f) => Revoked(s, f)
  }

  /** The tab's fetch has failed. */
  function Failed(s: State): State {
    s.(tab := RefreshDone(s.tab, None))
  }

  function Apply(s: State, step: Step): State {
    match step
    case Fetch(path) => s.(tab := ApiFetch(s.tab, path))
    case Respond(i, status) =>
      var starts := i < |s.tab.calls| && NeedsRefresh(s.tab.calls[i], status) && !s.tab.refreshInFlight;
      SendRefresh(s, starts).(tab := Answered(s.tab, i, status))
    case RestoreSession => SendRefresh(s, !s.tab.refreshInFlight).(tab := s.tab.(refreshInFlight := true))
    case Lookup(p) => LookUp(s, p)
    case Advance(h) => Advanced(s, h)
    case Die(h) =>
      if h !in s.serving then s else Failed(s).(serving := s.serving - multiset{h})
    case Abandon(h) =>
      if h !in s.serving then s else Failed(s).(serving := s.serving - multiset{h}, server := S.Enter(s.server, h))
    case Arrive(answer) =>
      if Response(answer) !in s.network then s
      else s.(network := s.network - multiset{Response(answer)} + multiset{Body(answer)},
              cookie := if answer.Granted? then Some(answer.session.token) else s.cookie)
    case Finish(answer, readable) =>
      if Body(answer) !in s.network then s
      else s.(network := s.network - multiset{Body(answer)},
              tab := RefreshDone(s.tab, if readable then Granted(answer) else None))
    case LoseRequest(p) =>
      if Request(p) !in s.network then s else Failed(s).(network := s.network - multiset{Request(p)})
    case LoseResponse(answer) =>
      if Response(answer) !in s.network then s else Failed(s).(network := s.network - multiset{Response(answer)})
    case Other(step) => s.(server := S.Apply(s.server, step))
  }

  function Run(s: State, steps: seq<Step>): State
    decreases |steps|
  {
    if steps == [] then s else Apply(Run(s, steps[..|steps| - 1]), steps[|steps| - 1])
  }

  /** A signed-in tab with nothing in flight. */
  function SignedIn(server: S.State, token: Id): State {
    State(server, multiset{}, Some(token), Tab(None, false, []), multiset{})
  }

  /** What the run must not contain: someone else using this family's tokens, or the tab's fetch failing
      when its refresh has reached the server and has not been refused. */
  predicate Disturbs(s: State, step: Step, family: Id) {
    match step
    case Other(RefreshLookup(raw)) => raw.Some? && S.InFamily(s.server.tables, raw.value, family)
    case Other(LogoutLookup(raw)) => raw.Some? && S.InFamily(s.server.tables, raw.value, family)
    case Abandon(h) => h in s.serving
    case LoseResponse(answer) => answer.Granted? && Response(answer) in s.network
    case _ => false
  }

  ghost predicate Undisturbed(s: State, steps: seq<Step>, family: Id) {
    forall n :: 0 <= n < |steps| ==> !Disturbs(Run(s, steps[..n]), steps[n], family)
  }

  // ---------------------------------------------------------------------------------------------
  // It is the session server

  /** The session server with every request it is working on. */
  function WholeServer(s: State): S.State {
    s.server.(handlers := s.server.handlers + s.serving)
  }

  /** What a step of someone else's request needs to find. */
  function Needs(step: S.Step): Option<S.Handler> {
    match step
    case RefreshReadUser(t) => Some(S.ReadingUser(t))
    case RefreshRotate(t) => Some(S.Rotating(t))
    case RevokeAll(f) => Some(S.Revoking(f))
    case Crash(h) => Some(h)
    case _ => None
  }

  /** The next step of a handler. */
  function NextOf(h: S.Handler): S.Step {
    match h
    case ReadingUser(t) => S.RefreshReadUser(t)
    case Rotating(t) => S.RefreshRotate(t)
    case Revoking(f) => S.RevokeAll(f)
  }

  /** The server's step behind a step, if it is one of the server's. */
  function ServerStep(s: State, step: Step): Option<S.Step> {
    match step
    case Lookup(p) => if Request(p) in s.network then Some(S.RefreshLookup(p)) else None
    case Advance(h) => if Advanced(s, h) == s then None else Some(NextOf(h))
    case Die(h) => if h in s.serving then Some(S.Crash(h)) else None
    case Other(step) => if Needs(step).Some? && Needs(step).value !in s.server.handlers then None else Some(step)
    case _ => None
  }

  lemma LookUpIsTheServers(s: State, p: Option<Id>)
    requires Request(p) in s.network
    ensures WholeServer(LookUp(s, p)) == S.Lookup(WholeServer(s), p)
  {
    match S.ExamineRow(s.server.tables.tokens, p, s.server.clock)
    case Replayed(f) => Joins(s.server.handlers, s.serving, S.Revoking(f));
    case Current => Joins(s.server.handlers, s.serving, S.ReadingUser(p.value));
    case Unknown =>
    case Lapsed =>
  }

  lemma Joins(others: multiset<S.Handler>, mine: multiset<S.Handler>, h: S.Handler)
    ensures others + (mine + multiset{h}) == others + mine + multiset{h} == others + multiset{h} + mine
  {}

  lemma Leaves(others: multiset<S.Handler>, mine: multiset<S.Handler>, h: S.Handler)
    requires h in mine
    ensures h in others + mine && others + (mine - multiset{h}) == others + mine - multiset{h}
  {}

  lemma UserReadIsTheServers(s: State, t: Id)
    requires UserRead(s, t) != s
    ensures WholeServer(UserRead(s, t)) == S.Apply(WholeServer(s), S.RefreshReadUser(t))
  {
    var h := S.ReadingUser(t);
    Leaves(s.server.handlers, s.serving, h);
    Joins(s.server.handlers, s.serving - multiset{h}, S.Rotating(t));
  }

  lemma RotatedIsTheServers(s: State, t: Id)
    requires Rotated(s, t) != s
    ensures WholeServer(Rotated(s, t)) == S.Apply(WholeServer(s), S.RefreshRotate(t))
  {
    Leaves(s.server.handlers, s.serving, S.Rotating(t));
  }

  lemma RevokedIsTheServers(s: State, f: Id)
    requires Revoked(s, f) != s
    ensures WholeServer(Revoked(s, f)) == S.Apply(WholeServer(s), S.RevokeAll(f))
  {
    Leaves(s.server.handlers, s.serving, S.Revoking(f));
  }

  lemma AdvanceIsTheServers(s: State, h: S.Handler)
    requires Advanced(s, h) != s
    ensures WholeServer(Advanced(s, h)) == S.Apply(WholeServer(s), NextOf(h))
  {
    match h
    case ReadingUser(t) => UserReadIsTheServers(s, t);
    case Rotating(t) => RotatedIsTheServers(s, t);
    case Revoking(f) => RevokedIsTheServers(s, f);
  }

  /** The server with more requests on it that the step has nothing to do with. */
  function Beside(server: S.State, mine: multiset<S.Handler>): S.State {
    server.(handlers := server.handlers + mine)
  }

  lemma LeavesBeside(server: S.State, mine: multiset<S.Handler>, h: S.Handler)
    requires h in server.handlers
    ensures h in Beside(server, mine).handlers && S.Leave(Beside(server, mine), h) == Beside(S.Leave(server, h), mine)
  {
    assert server.handlers + mine - multiset{h} == server.handlers - multiset{h} + mine;
  }

  lemma EntersBeside(server: S.State, mine: multiset<S.Handler>, h: S.Handler)
    ensures S.Enter(Beside(server, mine), h) == Beside(S.Enter(server, h), mine)
  {
    Joins(server.handlers, mine, h);
  }

  lemma LookupBeside(server: S.State, mine: multiset<S.Handler>, raw: Option<Id>)
    ensures S.Lookup(Beside(server, mine), raw) == Beside(S.Lookup(server, raw), mine)
  {
    match S.ExamineRow(server.tables.tokens, raw, server.clock)
    case Replayed(f) => EntersBeside(server, mine, S.Revoking(f));
    case Current => EntersBeside(server, mine, S.ReadingUser(raw.value));
    case Unknown =>
    case Lapsed =>
  }

  lemma LogoutBeside(server: S.State, mine: multiset<S.Handler>, raw: Option<Id>)
    ensures S.Apply(Beside(server, mine), S.LogoutLookup(raw)) == Beside(S.Apply(server, S.LogoutLookup(raw)), mine)
  {
    if raw.Some? && raw.value < |server.tables.tokens| {
      EntersBeside(server, mine, S.Revoking(server.tables.tokens[raw.value].family));
    }
  }

  lemma ReadUserBeside(server: S.State, mine: multiset<S.Handler>, t: Id)
    requires S.ReadingUser(t) in server.handlers
    ensures S.ReadUser(Beside(server, mine), t) == Beside(S.ReadUser(server, t), mine)
  {
    LeavesBeside(server, mine, S.ReadingUser(t));
    EntersBeside(S.Leave(server, S.ReadingUser(t)), mine, S.Rotating(t));
  }

  lemma StepBeside(server: S.State, mine: multiset<S.Handler>, step: S.Step)
    requires Needs(step).Some? ==> Needs(step).value in server.handlers
    ensures S.Apply(Beside(server, mine), step) == Beside(S.Apply(server, step), mine)
  {
    match step
    case RefreshLookup(raw) => LookupBeside(server, mine, raw);
    case LogoutLookup(raw) => LogoutBeside(server, mine, raw);
    case RefreshReadUser(t) => ReadUserBeside(server, mine, t);
    case RefreshRotate(t) => LeavesBeside(server, mine, S.Rotating(t));
    case RevokeAll(f) => LeavesBeside(server, mine, S.Revoking(f));
    case Crash(h) => LeavesBeside(server, mine, h);
    case Tick(_) =>
    case Register(_, _) =>
    case LoginAtOnce(_, _) =>
  }

  lemma OtherIsTheServers(s: State, step: S.Step)
    ensures WholeServer(Apply(s, Other(step)))
         == (if ServerStep(s, Other(step)).Some? then S.Apply(WholeServer(s), step) else WholeServer(s))
  {
    if ServerStep(s, Other(step)).Some? {
      StepBeside(s.server, s.serving, step);
    }
  }

  lemma FailuresAreTheServers(s: State, h: S.Handler)
    requires h in s.serving
    ensures WholeServer(Apply(s, Die(h))) == S.Apply(WholeServer(s), S.Crash(h))
    ensures WholeServer(Apply(s, Abandon(h))) == WholeServer(s)
  {
    Leaves(s.server.handlers, s.serving, h);
    Joins(s.server.handlers, s.serving - multiset{h}, h);
    assert s.serving - multiset{h} + multiset{h} == s.serving;
  }

  /** Every step is a step of the session server, or does nothing to it. */
  lemma StepIsTheServers(s: State, step: Step)
    ensures WholeServer(Apply(s, step))
         == (if ServerStep(s, step).Some? then S.Apply(WholeServer(s), ServerStep(s, step).value) else WholeServer(s))
  {
    if step.Lookup? {
      if Request(step.presented) in s.network {
        LookUpIsTheServers(s, step.presented);
      }
    } else if step.Advance? {
      if Advanced(s, step.handler) != s {
        AdvanceIsTheServers(s, step.handler);
      }
    } else if step.Die? || step.Abandon? {
      if step.handler in s.serving {
        FailuresAreTheServers(s, step.handler);
      }
    } else if step.Other? {
      OtherIsTheServers(s, step.step);
    }
  }

  // ---------------------------------------------------------------------------------------------
  // The family on the server

  ghost predicate Holds(d: S.Tables, t: Option<Id>, family: Id) {
    t.Some? && S.InFamily(d, t.value, family) && S.Live(d, t.value)
  }

  /** The family's newest token is its one live token; other families may have forked. */
  ghost predicate FamilyOk(d: S.Tables, family: Id) {
    && family < d.families && (forall t :: 0 <= t < |d.tokens| ==> d.tokens[t].family < d.families)
    && S.Lineage(d, family, false)
  }

  /** A request that is about another family. */
  predicate Elsewhere(d: S.Tables, h: S.Handler, family: Id) {
    match h
    case ReadingUser(t) => t < |d.tokens| && d.tokens[t].family != family
    case Rotating(t) => t < |d.tokens| && d.tokens[t].family != family
    case Revoking(f) => f != family
  }

  /** The family is in order, has not been ended, and nobody else's request is about it. */
  ghost predicate Quiet(server: S.State, family: Id) {
    && FamilyOk(server.tables, family) && family !in server.ended
    && forall h :: h in server.handlers ==> Elsewhere(server.tables, h, family)
  }

  /** The family has the same tokens as before, as live as before; tokens of other families stay there. */
  ghost predicate Untouched(d: S.Tables, e: S.Tables, family: Id) {
    && d.families <= e.families && |d.tokens| <= |e.tokens|
    && (forall t: Id :: S.InFamily(e, t, family) <==> S.InFamily(d, t, family))
    && (forall t: Id :: S.InFamily(d, t, family) ==> (S.Live(e, t) <==> S.Live(d, t)))
  }

  lemma UntouchedIsQuiet(server: S.State, after: S.State, family: Id)
    requires Quiet(server, family) && Untouched(server.tables, after.tables, family) && family !in after.ended
    requires forall t :: 0 <= t < |after.tables.tokens| ==> after.tables.tokens[t].family < after.tables.families
    requires forall h :: h in after.handlers ==> h in server.handlers || Elsewhere(after.tables, h, family)
    ensures Quiet(after, family)
  {
    S.SameFamily(server.tables, after.tables, family, false);
    forall h | h in after.handlers ensures Elsewhere(after.tables, h, family) {
      if h in server.handlers {
        assert Elsewhere(server.tables, h, family);
        StaysElsewhere(server.tables, after.tables, h, family);
      }
    }
  }

  lemma StaysElsewhere(d: S.Tables, e: S.Tables, h: S.Handler, family: Id)
    requires Untouched(d, e, family) && Elsewhere(d, h, family)
    ensures Elsewhere(e, h, family)
  {
    if !h.Revoking? {
      assert S.InFamily(e, h.token, family) <==> S.InFamily(d, h.token, family);
    }
  }

  lemma OtherAccountKeeps(server: S.State, step: S.Step, family: Id)
    requires Quiet(server, family) && (step.Register? || step.LoginAtOnce? || step.Tick?)
    ensures Untouched(server.tables, S.Apply(server, step).tables, family) && Quiet(S.Apply(server, step), family)
  {
    UntouchedIsQuiet(server, S.Apply(server, step), family);
  }

  lemma OtherLookupKeeps(server: S.State, step: S.Step, raw: Option<Id>, family: Id)
    requires Quiet(server, family) && (step == S.RefreshLookup(raw) || step == S.LogoutLookup(raw))
    requires raw.Some? ==> !S.InFamily(server.tables, raw.value, family)
    ensures Untouched(server.tables, S.Apply(server, step).tables, family) && Quiet(S.Apply(server, step), family)
  {
    UntouchedIsQuiet(server, S.Apply(server, step), family);
  }

  lemma OtherReadKeeps(server: S.State, step: S.Step, family: Id)
    requires Quiet(server, family) && (step.RefreshReadUser? || step.Crash?)
    ensures Untouched(server.tables, S.Apply(server, step).tables, family) && Quiet(S.Apply(server, step), family)
  {
    if step.RefreshReadUser? && S.ReadingUser(step.token) in server.handlers {
      assert Elsewhere(server.tables, S.ReadingUser(step.token), family);
    }
    UntouchedIsQuiet(server, S.Apply(server, step), family);
  }

  lemma OtherRotateKeeps(server: S.State, t: Id, family: Id)
    requires Quiet(server, family)
    ensures Untouched(server.tables, S.RotateNow(server, t).tables, family) && Quiet(S.RotateNow(server, t), family)
  {
    if S.Rotating(t) in server.handlers {
      assert Elsewhere(server.tables, S.Rotating(t), family);
      UntouchedIsQuiet(server, S.RotateNow(server, t), family);
    }
  }

  lemma OtherRevokeKeeps(server: S.State, f: Id, family: Id)
    requires Quiet(server, family)
    ensures Untouched(server.tables, S.RevokeNow(server, f).tables, family) && Quiet(S.RevokeNow(server, f), family)
  {
    if S.Revoking(f) in server.handlers {
      assert Elsewhere(server.tables, S.Revoking(f), family);
      UntouchedIsQuiet(server, S.RevokeNow(server, f), family);
    }
  }

  /** Whatever the server does for others, this family's tokens stay as they are. */
  lemma OtherStepKeeps(server: S.State, step: S.Step, family: Id)
    requires Quiet(server, family)
    requires (step.RefreshLookup? || step.LogoutLookup?) && step.raw.Some? ==>
               !S.InFamily(server.tables, step.raw.value, family)
    ensures Untouched(server.tables, S.Apply(server, step).tables, family) && Quiet(S.Apply(server, step), family)
  {
    match step
    case RefreshLookup(raw) => OtherLookupKeeps(server, step, raw, family);
    case LogoutLookup(raw) => OtherLookupKeeps(server, step, raw, family);
    case RefreshReadUser(_) => OtherReadKeeps(server, step, family);
    case Crash(_) => OtherReadKeeps(server, step, family);
    case RefreshRotate(t) => OtherRotateKeeps(server, t, family);
    case RevokeAll(f) => OtherRevokeKeeps(server, f, family);
    case Register(_, _) => OtherAccountKeeps(server, step, family);
    case LoginAtOnce(_, _) => OtherAccountKeeps(server, step, family);
    case Tick(_) => OtherAccountKeeps(server, step, family);
  }

  /** Rotating the family's live token leaves it with a new one. */
  lemma OwnRotationKeeps(server: S.State, t: Id, family: Id)
    requires Quiet(server, family) && Holds(server.tables, Some(t), family)
    ensures var after := server.(tables := S.Rotate(server.tables, t, server.clock, server.ttl));
      Quiet(after, family) && Holds(after.tables, Some(|server.tables.tokens|), family)
  {
    S.LiveRotation(server.tables, t, server.clock, server.ttl, false);
  }

  // ---------------------------------------------------------------------------------------------
  // The invariant

  /** The refresh on the wire carries the family's live token, or brings it, or the cookie has it. */
  ghost predicate MessageOk(s: State, m: Message, family: Id) {
    match m
    case Request(p) => Holds(s.server.tables, s.cookie, family) && (p.Some? ==> p == s.cookie)
    case Response(answer) =>
      Holds(s.server.tables, if answer.Granted? then Some(answer.session.token) else s.cookie, family)
    case Body(_) => Holds(s.server.tables, s.cookie, family)
  }

  /** The refresh at the server is about to exchange it. */
  ghost predicate ServingOk(s: State, h: S.Handler, family: Id) {
    !h.Revoking? && s.cookie == Some(h.token) && Holds(s.server.tables, s.cookie, family)
  }

  ghost predicate Inv(s: State, family: Id) {
    && Quiet(s.server, family)
    && |s.network| + |s.serving| == (if s.tab.refreshInFlight then 1 else 0)
    && (forall m :: m in s.network ==> MessageOk(s, m, family))
    && (forall h :: h in s.serving ==> ServingOk(s, h, family))
    && (!s.tab.refreshInFlight ==> Holds(s.server.tables, s.cookie, family))
  }

  /** In a family in order, the live token is the only one the server would not call a replay. */
  lemma OnlyOneLive(d: S.Tables, t: Id, u: Id, family: Id)
    requires FamilyOk(d, family)
    requires S.InFamily(d, t, family) && S.Live(d, t) && S.InFamily(d, u, family) && S.Live(d, u)
    ensures t == u
  {}

  /** The one refresh in flight is this message. */
  lemma OnTheWire(s: State, m: Message, family: Id)
    requires Inv(s, family) && m in s.network
    ensures s.network == multiset{m} && s.serving == multiset{} && s.tab.refreshInFlight && MessageOk(s, m, family)
  {
    assert s.network == multiset{m} + (s.network - multiset{m});
    assert |s.network - multiset{m}| == 0;
  }

  /** The one refresh in flight is this handler. */
  lemma AtTheServer(s: State, h: S.Handler, family: Id)
    requires Inv(s, family) && h in s.serving
    ensures s.serving == multiset{h} && s.network == multiset{} && s.tab.refreshInFlight && ServingOk(s, h, family)
  {
    assert s.serving == multiset{h} + (s.serving - multiset{h});
    assert |s.serving - multiset{h}| == 0;
  }

  // ---------------------------------------------------------------------------------------------
  // Every step keeps the invariant

  lemma TabKeeps(s: State, step: Step, family: Id)
    requires Inv(s, family) && (step.Fetch? || step.Respond? || step.RestoreSession?)
    ensures Inv(Apply(s, step), family)
  {
    var t := Apply(s, step);
    if t.network != s.network {
      assert s.network == multiset{} && s.serving == multiset{};
      assert t.network == multiset{Request(CookieToSend(s))};
    }
  }

  lemma TakenUpKeeps(s: State, p: Id, family: Id)
    requires Inv(s, family) && Request(Some(p)) in s.network
    requires S.ExamineRow(s.server.tables.tokens, Some(p), s.server.clock).Current?
    ensures Inv(LookUp(s, Some(p)), family)
  {
    OnTheWire(s, Request(Some(p)), family);
    var t := LookUp(s, Some(p));
    assert t.serving == multiset{S.ReadingUser(p)} && t.network == multiset{};
    assert ServingOk(t, S.ReadingUser(p), family);
  }

  /** The live token may be refused, but not for having been revoked. */
  lemma RefusedKeeps(s: State, p: Option<Id>, family: Id)
    requires Inv(s, family) && Request(p) in s.network
    requires !S.ExamineRow(s.server.tables.tokens, p, s.server.clock).Current?
    ensures Inv(LookUp(s, p), family)
  {
    OnTheWire(s, Request(p), family);
    var t := LookUp(s, p);
    assert t.network == multiset{Response(S.UNAUTHENTICATED)} && t.serving == multiset{};
    assert MessageOk(t, Response(S.UNAUTHENTICATED), family);
  }

  lemma LookupKeeps(s: State, p: Option<Id>, family: Id)
    requires Inv(s, family)
    ensures Inv(LookUp(s, p), family)
  {
    if Request(p) in s.network {
      if S.ExamineRow(s.server.tables.tokens, p, s.server.clock).Current? {
        TakenUpKeeps(s, p.value, family);
      } else {
        RefusedKeeps(s, p, family);
      }
    }
  }

  lemma UserReadKeeps(s: State, t: Id, family: Id)
    requires Inv(s, family)
    ensures Inv(UserRead(s, t), family)
  {
    var h, after := S.ReadingUser(t), UserRead(s, t);
    if h in s.serving {
      AtTheServer(s, h, family);
      if after.network != s.network {
        assert after.network == multiset{Response(S.UNAUTHENTICATED)} && after.serving == multiset{};
      } else {
        assert after.serving == multiset{S.Rotating(t)};
      }
    }
  }

  lemma RotatedKeeps(s: State, t: Id, family: Id)
    requires Inv(s, family)
    ensures Inv(Rotated(s, t), family)
  {
    var after := Rotated(s, t);
    if after != s {
      AtTheServer(s, S.Rotating(t), family);
      OwnRotationKeeps(s.server, t, family);
      assert after.network == multiset{Response(S.Granted(NewSession(s.server, t)))} && after.serving == multiset{};
    }
  }

  lemma ServedKeeps(s: State, step: Step, family: Id)
    requires Inv(s, family) && (step.Advance? || step.Die?)
    ensures Inv(Apply(s, step), family)
  {
    if step.handler in s.serving {
      AtTheServer(s, step.handler, family);
      if step.Advance? {
        if step.handler.ReadingUser? {
          UserReadKeeps(s, step.handler.token, family);
        } else {
          RotatedKeeps(s, step.handler.token, family);
        }
      } else {
        assert Apply(s, step).serving == multiset{};
      }
    }
  }

  lemma ArriveKeeps(s: State, answer: S.Answer, family: Id)
    requires Inv(s, family)
    ensures Inv(Apply(s, Arrive(answer)), family)
  {
    if Response(answer) in s.network {
      OnTheWire(s, Response(answer), family);
      var t := Apply(s, Arrive(answer));
      assert t.network == multiset{Body(answer)} && MessageOk(t, Body(answer), family);
    }
  }

  /** Once the refresh is off the wire it is over, and the cookie holds the live token. */
  lemma OffTheWire(s: State, t: State, m: Message, family: Id)
    requires Inv(s, family) && m in s.network && Holds(s.server.tables, s.cookie, family)
    requires t == s.(network := s.network - multiset{m}, tab := t.tab) && !t.tab.refreshInFlight
    ensures Inv(t, family)
  {
    OnTheWire(s, m, family);
    assert t.network == multiset{};
  }

  lemma EndKeeps(s: State, step: Step, family: Id)
    requires Inv(s, family) && (step.Finish? || step.LoseRequest? || step.LoseResponse?)
    requires !Disturbs(s, step, family)
    ensures Inv(Apply(s, step), family)
  {
    var t := Apply(s, step);
    if step.Finish? {
      if Body(step.answer) in s.network {
        OffTheWire(s, t, Body(step.answer), family);
      }
    } else if step.LoseRequest? {
      if Request(step.presented) in s.network {
        OffTheWire(s, t, Request(step.presented), family);
      }
    } else if Response(step.answer) in s.network {
      OffTheWire(s, t, Response(step.answer), family);
    }
  }

  /** What the server does for others reaches neither the wire nor the tab. */
  lemma OthersKeep(s: State, step: S.Step, family: Id)
    requires Inv(s, family) && !Disturbs(s, Other(step), family)
    ensures Inv(Apply(s, Other(step)), family)
  {
    var t := Apply(s, Other(step));
    OtherStepKeeps(s.server, step, family);
    forall m | m in t.network ensures MessageOk(t, m, family) {
      assert MessageOk(s, m, family);
    }
    forall h | h in t.serving ensures ServingOk(t, h, family) {
      assert ServingOk(s, h, family);
    }
  }

  lemma StepKeeps(s: State, step: Step, family: Id)
    requires Inv(s, family) && !Disturbs(s, step, family)
    ensures Inv(Apply(s, step), family)
  {
    if step.Lookup? {
      LookupKeeps(s, step.presented, family);
    } else if step.Advance? || step.Die? {
      ServedKeeps(s, step, family);
    } else if step.Arrive? {
      ArriveKeeps(s, step.answer, family);
    } else if step.Finish? || step.LoseRequest? || step.LoseResponse? {
      EndKeeps(s, step, family);
    } else if step.Other? {
      OthersKeep(s, step.step, family);
    } else if step.Fetch? || step.Respond? || step.RestoreSession? {
      TabKeeps(s, step, family);
    }
  }

  lemma UndisturbedSoFar(s: State, steps: seq<Step>, n: nat, family: Id)
    requires n < |steps| && Undisturbed(s, steps, family)
    ensures Undisturbed(s, steps[..n], family) && !Disturbs(Run(s, steps[..n]), steps[n], family)
  {
    forall m | 0 <= m < n ensures !Disturbs(Run(s, steps[..n][..m]), steps[..n][m], family) {
      assert steps[..n][..m] == steps[..m];
    }
  }

  lemma {:induction false} RunKeeps(s: State, steps: seq<Step>, family: Id)
    requires Inv(s, family) && Undisturbed(s, steps, family)
    ensures Inv(Run(s, steps), family)
    decreases |steps|
  {
    if steps != [] {
      var last := |steps| - 1;
      UndisturbedSoFar(s, steps, last, family);
      RunKeeps(s, steps[..last], family);
      StepKeeps(Run(s, steps[..last]), steps[last], family);
    }
  }

  // ---------------------------------------------------------------------------------------------
  // What it gives

  /** A tab that holds the live token of a family nobody else is using. */
  ghost predicate Alone(server: S.State, token: Id) {
    && token < |server.tables.tokens| && S.Live(server.tables, token)
    && Quiet(server, server.tables.tokens[token].family)
  }

  /** The one token the server would take from this family. */
  ghost predicate TheLiveToken(d: S.Tables, t: Id, family: Id) {
    && S.InFamily(d, t, family) && S.Live(d, t)
    && forall u :: S.InFamily(d, u, family) && S.Live(d, u) ==> u == t
  }

  lemma HeldIsTheLiveToken(d: S.Tables, t: Id, family: Id)
    requires FamilyOk(d, family) && Holds(d, Some(t), family)
    ensures TheLiveToken(d, t, family)
  {
    forall u | S.InFamily(d, u, family) && S.Live(d, u) ensures u == t {
      OnlyOneLive(d, t, u, family);
    }
  }

  /** However many calls meet a 401 together, and however the server's work on the one refresh interleaves
      with everyone else's: at most one refresh is in flight, it presents the family's one live token and
      exchanges it while it still is, and the server never takes it for a replay. */
  lemma NeverTripsReplayDetection(server: S.State, token: Id, steps: seq<Step>, p: Option<Id>, h: S.Handler)
    requires Alone(server, token)
    requires Undisturbed(SignedIn(server, token), steps, server.tables.tokens[token].family)
    ensures var s, family := Run(SignedIn(server, token), steps), server.tables.tokens[token].family;
      && |s.network| + |s.serving| <= 1
      && family !in s.server.ended
      && (Request(p) in s.network ==>
            && !S.Examine(s.server.tables, p, s.server.clock).Replayed?
            && (p.Some? ==> TheLiveToken(s.server.tables, p.value, family)))
      && (h in s.serving ==> !h.Revoking? && TheLiveToken(s.server.tables, h.token, family))
  {
    var start, family := SignedIn(server, token), server.tables.tokens[token].family;
    RunKeeps(start, steps, family);
    var s := Run(start, steps);
    if Request(p) in s.network {
      OnTheWire(s, Request(p), family);
      if p.Some? {
        HeldIsTheLiveToken(s.server.tables, p.value, family);
      }
    }
    if h in s.serving {
      AtTheServer(s, h, family);
      HeldIsTheLiveToken(s.server.tables, h.token, family);
    }
  }

  /** No step the server takes is a stale rotation of this family: what forks a family needs two refreshes
      of one token at the server at once, or a logout around one. */
  lemma InvNeverStale(s: State, step: Step, family: Id)
    requires Inv(s, family) && ServerStep(s, step).Some? && S.Stale(WholeServer(s), ServerStep(s, step).value)
    ensures step.Other? && S.Stale(s.server, step.step)
    ensures !S.InFamily(s.server.tables, ServerStep(s, step).value.token, family)
  {
    var t := ServerStep(s, step).value.token;
    if step.Advance? {
      AtTheServer(s, S.Rotating(t), family);
      assert false;
    }
    assert Elsewhere(s.server.tables, S.Rotating(t), family);
  }

  /** On every run the server's rotations of this family are of tokens that are still live. */
  lemma NeverRotatesStale(server: S.State, token: Id, steps: seq<Step>, n: nat)
    requires Alone(server, token) && n < |steps|
    requires Undisturbed(SignedIn(server, token), steps, server.tables.tokens[token].family)
    ensures var s := Run(SignedIn(server, token), steps[..n]);
      ServerStep(s, steps[n]).Some? && S.Stale(WholeServer(s), ServerStep(s, steps[n]).value) ==>
        !S.InFamily(s.server.tables, ServerStep(s, steps[n]).value.token, server.tables.tokens[token].family)
  {
    var start, family := SignedIn(server, token), server.tables.tokens[token].family;
    UndisturbedSoFar(start, steps, n, family);
    RunKeeps(start, steps[..n], family);
    var s := Run(start, steps[..n]);
    if ServerStep(s, steps[n]).Some? && S.Stale(WholeServer(s), ServerStep(s, steps[n]).value) {
      InvNeverStale(s, steps[n], family);
    }
  }

  /** The server's lineages are all in order after a step exactly when it is not somebody else's stale rotation. */
  lemma LineagesKeptExactly(s: State, step: Step, family: Id)
    requires Inv(s, family) && S.Inv(WholeServer(s))
    ensures S.Inv(WholeServer(Apply(s, step))) <==> !(step.Other? && S.Stale(s.server, step.step))
  {
    StepIsTheServers(s, step);
    if ServerStep(s, step).Some? {
      S.StepKeepsExactly(WholeServer(s), ServerStep(s, step).value);
      if S.Stale(WholeServer(s), ServerStep(s, step).value) {
        InvNeverStale(s, step, family);
      }
    }
  }

  // ---------------------------------------------------------------------------------------------
  // The two exceptions: a fetch that fails after its refresh has reached the server

  /** A refresh from its request to its answer, with nothing in between. */
  function Served(s: State, t: Id): State {
    Advanced(Advanced(LookUp(s, Some(t)), S.ReadingUser(t)), S.Rotating(t))
  }

  /** A refresh with a usable token, and no other, is on the wire. */
  predicate Asking(s: State, t: Id) {
    && s.cookie == Some(t) && S.Examine(s.server.tables, s.cookie, s.server.clock).Current?
    && s.network == multiset{Request(s.cookie)} && s.serving == multiset{}
  }

  function AtRotation(s: State, t: Id): State {
    s.(network := multiset{}, serving := multiset{S.Rotating(t)})
  }

  lemma ReachesTheRotation(s: State, t: Id)
    requires Asking(s, t)
    ensures Advanced(LookUp(s, Some(t)), S.ReadingUser(t)) == AtRotation(s, t)
  {
    assert LookUp(s, Some(t)) == s.(network := multiset{}, serving := multiset{S.ReadingUser(t)});
  }

  lemma ServedIsRefreshed(s: State, t: Id)
    requires Asking(s, t)
    ensures var (tables, answer) := S.Refresh(s.server.tables, s.cookie, s.server.clock, s.server.ttl);
      && answer.Granted?
      && Served(s, t) == s.(server := s.server.(tables := tables), network := multiset{Response(answer)})
  {
    ReachesTheRotation(s, t);
  }

  /** When the answer to a successful refresh never arrives, the cookie is left with the rotated token, and
      presenting it again ends the session. */
  lemma LostAnswerTripsReplayDetection(s: State, t: Id)
    requires Asking(s, t)
    ensures var answer := S.Refresh(s.server.tables, s.cookie, s.server.clock, s.server.ttl).1;
      var lost, family := Apply(Served(s, t), LoseResponse(answer)), s.server.tables.tokens[t].family;
      && Disturbs(Served(s, t), LoseResponse(answer), family)
      && lost.cookie == s.cookie && lost.network == multiset{}
      && S.Examine(lost.server.tables, lost.cookie, lost.server.clock) == S.Replayed(family)
  {
    ServedIsRefreshed(s, t);
  }

  /** The connection breaks while the server is about to rotate. */
  function Broken(s: State, t: Id): State {
    Apply(Advanced(LookUp(s, Some(t)), S.ReadingUser(t)), Abandon(S.Rotating(t)))
  }

  lemma BrokenShape(s: State, t: Id)
    requires Asking(s, t)
    ensures Broken(s, t) == Failed(s).(
              network := multiset{}, serving := multiset{}, server := S.Enter(s.server, S.Rotating(t)))
  {
    ReachesTheRotation(s, t);
  }

  lemma AsksAgain(s: State, t: Id)
    requires s.cookie == Some(t) && S.Examine(s.server.tables, s.cookie, s.server.clock).Current?
    requires s.network == multiset{} && s.serving == multiset{} && !s.tab.refreshInFlight
    ensures Asking(Apply(s, RestoreSession), t) && Apply(s, RestoreSession).server == s.server
  {
    assert Apply(s, RestoreSession).network == multiset{Request(s.cookie)};
  }

  /** Then the page asks again, and its second refresh gets as far as the first had. */
  function AskedTwice(s: State, t: Id): State {
    Advanced(LookUp(Apply(Broken(s, t), RestoreSession), Some(t)), S.ReadingUser(t))
  }

  lemma BothReachTheRotation(s: State, t: Id)
    requires Asking(s, t)
    ensures AskedTwice(s, t).server == S.Enter(s.server, S.Rotating(t))
    ensures AskedTwice(s, t).serving == multiset{S.Rotating(t)}
  {
    BrokenShape(s, t);
    AsksAgain(Broken(s, t), t);
    ReachesTheRotation(Apply(Broken(s, t), RestoreSession), t);
  }

  /** When the connection breaks earlier, while the server is still at it, the tab's next refresh reaches the
      rotation beside the first and the family forks: one promise in the tab is not one rotation at the server. */
  lemma AbandonedRefreshForks(s: State, t: Id)
    requires Asking(s, t)
    ensures S.Forks(WholeServer(AskedTwice(s, t)), t, |s.server.tables.tokens|, s.server.tables.tokens[t].family)
  {
    BothReachTheRotation(s, t);
    S.TwoRotations(WholeServer(AskedTwice(s, t)), t);
  }

  // ---------------------------------------------------------------------------------------------
  // Calls

  /** A call is sent once, or twice with one refresh in between; credential calls are sent once. */
  predicate CallOk(call: Call) {
    match call
    case Sent(path, _, retry, sends) => if retry then sends == 1 else sends == 2 && path !in CREDENTIAL_PATHS
    case AwaitingRefresh(path, sends) => sends == 1 && path !in CREDENTIAL_PATHS
    case Done(path, _, sends) => 1 <= sends <= 2 && (path in CREDENTIAL_PATHS ==> sends == 1)
  }

  ghost predicate CallsOk(tab: Tab) {
    && (forall i :: 0 <= i < |tab.calls| ==> CallOk(tab.calls[i]))
    && (forall i :: 0 <= i < |tab.calls| && tab.calls[i].AwaitingRefresh? ==> tab.refreshInFlight)
  }

  lemma FetchKeepsCalls(tab: Tab, path: string)
    requires CallsOk(tab)
    ensures CallsOk(ApiFetch(tab, path))
  {}

  lemma AnswerKeepsCalls(tab: Tab, i: nat, status: nat)
    requires CallsOk(tab)
    ensures CallsOk(Answered(tab, i, status))
  {}

  lemma RefreshDoneKeepsCalls(tab: Tab, granted: Option<S.Session>)
    requires CallsOk(tab)
    ensures CallsOk(RefreshDone(tab, granted))
  {
    var after := RefreshDone(tab, granted);
    forall i | 0 <= i < |after.calls| ensures CallOk(after.calls[i]) && !after.calls[i].AwaitingRefresh? {
      assert CallOk(tab.calls[i]);
    }
  }

  /** The five things that can happen to the tab. */
  lemma TabSteps(s: State, step: Step)
    ensures var t := Apply(s, step).tab;
      || t == s.tab
      || t == s.tab.(refreshInFlight := true)
      || (step.Fetch? && t == ApiFetch(s.tab, step.path))
      || (step.Respond? && t == Answered(s.tab, step.call, step.status))
      || exists granted :: t == RefreshDone(s.tab, granted)
  {}

  lemma StepKeepsCalls(s: State, step: Step)
    requires CallsOk(s.tab)
    ensures CallsOk(Apply(s, step).tab)
  {
    TabSteps(s, step);
    var t := Apply(s, step).tab;
    if step.Fetch? {
      FetchKeepsCalls(s.tab, step.path);
    } else if step.Respond? {
      AnswerKeepsCalls(s.tab, step.call, step.status);
    } else if granted :| t == RefreshDone(s.tab, granted) {
      RefreshDoneKeepsCalls(s.tab, granted);
    }
  }

  /** Whatever happens on the wire, every call puts at most two requests on it, a credential call one,
      and a call that waits is waiting for a refresh that really is in flight. */
  lemma {:induction false} AtMostOneRetry(s: State, steps: seq<Step>, i: nat)
    requires CallsOk(s.tab)
    ensures CallsOk(Run(s, steps).tab)
    ensures i < |Run(s, steps).tab.calls| ==>
      var call := Run(s, steps).tab.calls[i];
      && call.sends <= 2
      && (call.path in CREDENTIAL_PATHS ==> call.sends == 1)
      && (call.AwaitingRefresh? ==> Run(s, steps).tab.refreshInFlight)
    decreases |steps|
  {
    if steps != [] {
      AtMostOneRetry(s, steps[..|steps| - 1], i);
      StepKeepsCalls(Run(s, steps[..|steps| - 1]), steps[|steps| - 1]);
    }
    assert i < |Run(s, steps).tab.calls| ==> CallOk(Run(s, steps).tab.calls[i]);
  }

  function Burst(n: nat): seq<Step> {
    seq(n, i requires 0 <= i < n => Respond(i, UNAUTHORIZED))
  }

  /** Every call is out for the first time, and a 401 would send it to refresh. */
  predicate AllFirstTries(tab: Tab) {
    forall i :: 0 <= i < |tab.calls| ==> NeedsRefresh(tab.calls[i], UNAUTHORIZED)
  }

  /** Any number of simultaneous 401s puts a single refresh on the wire, with everyone waiting for it. */
  lemma {:induction false} BurstSharesOneRefresh(s: State, n: nat)
    requires s.network == multiset{} && !s.tab.refreshInFlight && AllFirstTries(s.tab) && n <= |s.tab.calls|
    ensures var t := Run(s, Burst(n));
      && t == s.(network := t.network, tab := t.tab)
      && t.network == (if n == 0 then multiset{} else multiset{Request(CookieToSend(s))})
      && t.tab.refreshInFlight == (n > 0)
      && t.tab.accessToken == s.tab.accessToken
      && |t.tab.calls| == |s.tab.calls|
      && (forall i :: 0 <= i < n ==> t.tab.calls[i] == AwaitingRefresh(s.tab.calls[i].path, s.tab.calls[i].sends))
      && (forall i :: n <= i < |s.tab.calls| ==> t.tab.calls[i] == s.tab.calls[i])
  {
    if n == 0 {
      assert Burst(0) == [];
    } else {
      assert Burst(n)[..n - 1] == Burst(n - 1);
      BurstSharesOneRefresh(s, n - 1);
    }
  }

  /** A refresh from its request to its end, undisturbed. */
  function RoundTrip(s: State, t: Id): State {
    var answer := S.Refresh(s.server.tables, Some(t), s.server.clock, s.server.ttl).1;
    Apply(Apply(Served(s, t), Arrive(answer)), Finish(answer, true))
  }

  /** What it leaves behind. */
  function Delivered(s: State, t: Id): State
    requires Asking(s, t)
  {
    var session := NewSession(s.server, t);
    s.(server := s.server.(tables := S.Rotate(s.server.tables, t, s.server.clock, s.server.ttl)),
       cookie := Some(session.token), network := multiset{}, tab := RefreshDone(s.tab, Some(session)))
  }

  lemma ArrivesAndFinishes(s: State, session: S.Session)
    requires s.network == multiset{Response(S.Granted(session))}
    ensures Apply(Apply(s, Arrive(S.Granted(session))), Finish(S.Granted(session), true))
         == s.(cookie := Some(session.token), network := multiset{}, tab := RefreshDone(s.tab, Some(session)))
  {
    var arrived := Apply(s, Arrive(S.Granted(session)));
    assert arrived == s.(cookie := Some(session.token), network := multiset{Body(S.Granted(session))});
  }

  lemma RoundTripDelivers(s: State, t: Id)
    requires Asking(s, t)
    ensures RoundTrip(s, t) == Delivered(s, t)
  {
    ServedIsRefreshed(s, t);
    ArrivesAndFinishes(Served(s, t), NewSession(s.server, t));
  }

  lemma AllResumed(before: seq<Call>, calls: seq<Call>, session: S.Session)
    requires |calls| == |before|
    requires forall i :: 0 <= i < |before| ==>
        before[i].Sent? && calls[i] == AwaitingRefresh(before[i].path, before[i].sends)
    ensures forall i :: 0 <= i < |before| ==>
              ResumedAll(calls, Some(session))[i] == Sent(before[i].path, Some(session), false, before[i].sends + 1)
  {}

  /** The state of a burst once everyone is waiting for the one refresh. */
  ghost predicate AllWaiting(s: State, waiting: State) {
    && waiting == s.(network := multiset{Request(s.cookie)}, tab := waiting.tab)
    && |waiting.tab.calls| == |s.tab.calls|
    && forall i :: 0 <= i < |s.tab.calls| ==>
         s.tab.calls[i].Sent? && waiting.tab.calls[i] == AwaitingRefresh(s.tab.calls[i].path, s.tab.calls[i].sends)
  }

  /** The burst is over: one rotation, and every call sent again with the same new access token. */
  ghost predicate AllServed(s: State, t: State, session: S.Session) {
    && t.cookie == Some(session.token) && t.network == multiset{} && !t.tab.refreshInFlight
    && |t.tab.calls| == |s.tab.calls|
    && forall i :: 0 <= i < |s.tab.calls| ==>
         s.tab.calls[i].Sent?
         && t.tab.calls[i] == Sent(s.tab.calls[i].path, Some(session), false, s.tab.calls[i].sends + 1)
  }

  lemma WaitingIsServed(s: State, waiting: State, token: Id)
    requires AllWaiting(s, waiting) && Asking(waiting, token)
    ensures AllServed(s, Delivered(waiting, token), NewSession(s.server, token))
  {
    AllResumed(s.tab.calls, waiting.tab.calls, NewSession(s.server, token));
  }

  /** One refresh serves the whole burst: the server rotates once, and every call is sent again with
      the same new access token. */
  lemma BurstIsOneRotation(s: State, token: Id)
    requires s.network == multiset{} && s.serving == multiset{} && !s.tab.refreshInFlight
    requires AllFirstTries(s.tab) && s.tab.calls != []
    requires s.cookie == Some(token) && S.Examine(s.server.tables, s.cookie, s.server.clock).Current?
    ensures var t := RoundTrip(Run(s, Burst(|s.tab.calls|)), token);
      && t.server == s.server.(tables := S.Rotate(s.server.tables, token, s.server.clock, s.server.ttl))
      && t.serving == multiset{}
      && AllServed(s, t, NewSession(s.server, token))
  {
    BurstSharesOneRefresh(s, |s.tab.calls|);
    assert CookieToSend(s) == s.cookie;
    var waiting := Run(s, Burst(|s.tab.calls|));
    WaitingIsServed(s, waiting, token);
    RoundTripDelivers(waiting, token);
  }

  // ---------------------------------------------------------------------------------------------
  // The client module as it runs

  class ApiClient {
    var accessToken: Option<S.Session>
    var refreshInFlight: bool
    var calls: seq<Call>
    /** How many refresh requests have been put on the wire. */
    var refreshesSent: nat

    function AsTab(): Tab
      reads this
    {
      Tab(accessToken, refreshInFlight, calls)
    }

    constructor ()
      ensures AsTab() == Tab(None, false, []) && refreshesSent == 0
    {
      accessToken, refreshInFlight, calls, refreshesSent := None, false, [], 0;
    }

    method Fetch(path: string)
      modifies this`calls
      ensures AsTab() == ApiFetch(old(AsTab()), path)
    {
      calls := calls + [Sent(path, accessToken, true, 1)];
    }

    /** Joins the refresh in flight, or sends one. */
    method RefreshAccessToken()
      modifies this`refreshInFlight, this`refreshesSent
      ensures AsTab() == old(AsTab()).(refreshInFlight := true)
      ensures refreshesSent == old(refreshesSent) + (if old(refreshInFlight) then 0 else 1)
    {
      if !refreshInFlight {
        refreshInFlight := true;
        refreshesSent := refreshesSent + 1;
      }
    }

    method OnResponse(i: nat, status: nat)
      requires i < |calls| && calls[i].Sent?
      modifies this
      ensures AsTab() == Answered(old(AsTab()), i, status)
      ensures refreshesSent == old(refreshesSent)
                + (if NeedsRefresh(old(calls[i]), status) && !old(refreshInFlight) then 1 else 0)
    {
      var call := calls[i];
      if status == UNAUTHORIZED && call.retryOnUnauthorized && call.path !in CREDENTIAL_PATHS {
        calls := calls[i := AwaitingRefresh(call.path, call.sends)];
        RefreshAccessToken();
      } else {
        calls := calls[i := Done(call.path, status, call.sends)];
      }
    }

    /** Clears the shared promise before anyone waiting on it goes on. */
    method OnRefreshSettled(granted: Option<S.Session>)
      modifies this`accessToken, this`refreshInFlight, this`calls
      ensures AsTab() == RefreshDone(old(AsTab()), granted)
    {
      accessToken, refreshInFlight := granted, false;
      for i := 0 to |calls|
        invariant accessToken == granted && !refreshInFlight && |calls| == |old(calls)|
        invariant forall k :: 0 <= k < i ==> calls[k] == Resumed(old(calls)[k], granted)
        invariant forall k :: i <= k < |calls| ==> calls[k] == old(calls)[k]
      {
        if calls[i].AwaitingRefresh? {
          var path, sends := calls[i].path, calls[i].sends;
          calls := calls[i := if granted.Some? then Sent(path, accessToken, false, sends + 1)
                              else Done(path, UNAUTHORIZED, sends)];
        }
      }
    }
  }
}
