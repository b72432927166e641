/**
 * The session-ticket state machine of the PVE API client as pure functions:
 * the state the client holds (ticket, login timestamp, the transport's
 * cookie slot), one `Step` per public operation, and `Run` over a sequence
 * of operations. The class `PveApi.Api` is proved against `Step`; the
 * properties of the client are proved here, about `Step` and `Run`.
 */
module Session {
  import opened Wrappers
  import opened Json
  import opened Url

  /** A ticket is honoured for this many seconds after the recorded login time. */
  const ValidityWindow: int := 7200
  const CookieName: string := "PVEAuthCookie"
  const CsrfHeader: string := "CSRFPreventionToken"
  const TicketPath: string := "/access/ticket"

  /** The constructor's arguments; they never change. */
  datatype Config = Config(host: string, port: nat, realm: string, user: string, pass: string)

  /** The one cookie the client ever sets on its transport. */
  datatype Cookie = Cookie(name: string, value: Value)

  /** `loginTicket`, `loginTimestamp` (None is PHP null) and the transport's cookie slot. */
  datatype State = State(ticket: Value, timestamp: Option<int>, cookie: Option<Cookie>)

  datatype Verb = GET | POST

  /** One HTTP call handed to the transport. */
  datatype Call = Call(verb: Verb, url: string, body: Value, headers: map<string, Value>)

  /** The public operations; `now` is the clock reading, `reply` the decoded response the transport would return. */
  datatype Event =
    | Login(now: int, reply: Value)
    | Logout
    | Get(now: int, path: string, body: Value, reply: Value)
    | Post(now: int, path: string, body: Value, reply: Value)

  /** What one operation does: the new state, the calls it issued, the value it returned (Null for none). */
  datatype Outcome = Outcome(state: State, calls: seq<Call>, result: Value)

  /** What a sequence of operations does: the final state and every call issued, in order. */
  datatype Trace = Trace(state: State, calls: seq<Call>)

  /** A fresh client: no ticket, the timestamp property's default 0, no cookie. */
  const Initial: State := State(Null, Some(0), None)

  /** No ticket held at all, whatever the clock says. */
  predicate LoggedOut(s: State) {
    LooselyNull(s.ticket)
  }

  /**
   * The expiry test as the code writes it: the timestamp is at or after
   * `now + 7200`. A null timestamp never satisfies it.
   */
  predicate ExpiredAsWritten(timestamp: Option<int>, now: int) {
    timestamp.Some? && timestamp.value >= now + ValidityWindow
  }

  /** The answer `hasValidTicket` gives. */
  predicate TicketValid(s: State, now: int) {
    !LoggedOut(s) && !ExpiredAsWritten(s.timestamp, now)
  }

  /** The state `hasValidTicket` leaves behind. */
  function Checked(s: State, now: int): State {
    if TicketValid(s, now) then s else s.(timestamp := None, cookie := None)
  }

  /** The credentials `login` posts (their form encoding is not modelled). */
  function LoginBody(cfg: Config): Value {
    Object(map["realm" := Str(cfg.realm), "username" := Str(cfg.user), "password" := Str(cfg.pass)])
  }

  function LoginCall(cfg: Config): Call {
    Call(POST, MakeLocation(cfg.host, cfg.port) + TicketPath, LoginBody(cfg), map[])
  }

  /** The state after a login whose reply carries `data`. */
  function Authenticated(data: Value, now: int): State {
    State(data, Some(now), Some(Cookie(CookieName, Index(data, "ticket"))))
  }

  /**
   * `request`: gate on the ticket, then dispatch on the method name. The
   * transport's `get` takes no headers, so only a `post` carries them.
   */
  function Request(cfg: Config, s: State, now: int, verb: string, path: string, body: Value,
                   headers: map<string, Value>, reply: Value): Outcome
  {
    if !TicketValid(s, now) then Outcome(Checked(s, now), [], Null)
    else
      var url := MakeLocation(cfg.host, cfg.port) + path;
      if verb == "get" then Outcome(s, [Call(GET, url, body, map[])], Index(reply, "data"))
      else if verb == "post" then Outcome(s, [Call(POST, url, body, headers)], Index(reply, "data"))
      else Outcome(s, [], List([]))
  }

  /** The headers `post` passes on: the CSRF token read from the held ticket. */
  function CsrfHeaders(s: State): map<string, Value> {
    map[CsrfHeader := Index(s.ticket, CsrfHeader)]
  }

  function Step(cfg: Config, s: State, e: Event): Outcome {
    match e
    case Login(now, reply) =>
      if TicketValid(s, now) then Outcome(s, [], Null)
      else
        var s' := if IsSet(reply, "data") then Authenticated(Index(reply, "data"), now) else Checked(s, now);
        Outcome(s', [LoginCall(cfg)], Null)
    case Logout => Outcome(State(Null, None, None), [], Null)
    case Get(now, path, body, reply) => Request(cfg, s, now, "get", path, body, map[], reply)
    case Post(now, path, body, reply) => Request(cfg, s, now, "post", path, body, CsrfHeaders(s), reply)
  }

  function Run(cfg: Config, s: State, events: seq<Event>): Trace
    decreases |events|
  {
    if events == [] then Trace(s, [])
    else
      var o := Step(cfg, s, events[0]);
      var rest := Run(cfg, o.state, events[1..]);
      Trace(rest.state, o.calls + rest.calls)
  }

  /** The number of `get` and `post` operations in a sequence. */
  function RequestCount(events: seq<Event>): nat
    decreases |events|
  {
    if events == [] then 0
    else (if events[0].Get? || events[0].Post? then 1 else 0) + RequestCount(events[1..])
  }

  /** A call addressed to this client's API base URL. */
  predicate OnApi(cfg: Config, c: Call) {
    var base := MakeLocation(cfg.host, cfg.port);
    |base| <= |c.url| && c.url[..|base|] == base
  }

  // ---------------------------------------------------------------------
  // hasValidTicket

  /**
   * The check fails exactly when no ticket is held or the timestamp is at or
   * beyond `now + 7200`; failing clears timestamp and cookie but keeps the
   * ticket; passing changes nothing.
   */
  lemma CheckEffect(s: State, now: int)
    ensures !TicketValid(s, now) <==> LooselyNull(s.ticket) || (s.timestamp.Some? && s.timestamp.value >= now + 7200)
    ensures TicketValid(s, now) ==> Checked(s, now) == s
    ensures !TicketValid(s, now) ==> Checked(s, now) == State(s.ticket, None, None)
  {
  }

  /** A ticket stamped at `t` is still honoured at every later clock reading. */
  lemma StampedTicketNeverExpires(s: State, t: int, now: int)
    requires !LoggedOut(s) && s.timestamp == Some(t)
    requires now >= t
    ensures TicketValid(s, now) && Checked(s, now) == s
  {
  }

  // ---------------------------------------------------------------------
  // logout

  /** Whatever the prior state, logout leaves no ticket, no timestamp, no cookie, and calls nothing. */
  lemma LogoutClears(cfg: Config, s: State, now: int)
    ensures Step(cfg, s, Logout).state == State(Null, None, None)
    ensures Step(cfg, s, Logout).calls == []
    ensures !TicketValid(Step(cfg, s, Logout).state, now)
  {
  }

  // ---------------------------------------------------------------------
  // login

  /** With a valid ticket held, login issues no call and changes nothing. */
  lemma LoginWhileValidIsNoop(cfg: Config, s: State, now: int, reply: Value)
    requires TicketValid(s, now)
    ensures Step(cfg, s, Login(now, reply)) == Outcome(s, [], Null)
  {
  }

  /**
   * Without a valid ticket, login posts the credentials to `/access/ticket`;
   * a reply carrying `data` makes `data` the ticket, stamps it with `now` and
   * sets the `PVEAuthCookie` cookie to the ticket's `ticket` entry.
   */
  lemma LoginStoresData(cfg: Config, s: State, now: int, reply: Value)
    requires !TicketValid(s, now) && IsSet(reply, "data")
    ensures var o := Step(cfg, s, Login(now, reply));
      && o.calls == [LoginCall(cfg)]
      && o.calls[0].url == MakeLocation(cfg.host, cfg.port) + "/access/ticket"
      && o.state.ticket == reply.fields["data"]
      && o.state.timestamp == Some(now)
      && o.state.cookie == Some(Cookie("PVEAuthCookie", Index(reply.fields["data"], "ticket")))
  {
  }

  /**
   * Login is idempotent: after a login whose reply carries a non-empty
   * `data`, a second login at the same or a later time issues no call and
   * leaves the state as it is.
   */
  lemma LoginIdempotent(cfg: Config, s: State, now: int, reply: Value, later: int, reply': Value)
    requires !LooselyNull(Index(reply, "data"))
    requires later >= now
    ensures var s1 := Step(cfg, s, Login(now, reply)).state;
      TicketValid(s1, later) && Step(cfg, s1, Login(later, reply')) == Outcome(s1, [], Null)
  {
  }

  /**
   * A login whose reply has no `data` stores nothing, so from a logged-out
   * state the following `get` or `post` is refused without a call.
   */
  lemma FailedLoginRefusesRequests(cfg: Config, s: State, now: int, reply: Value, e: Event)
    requires LoggedOut(s) && !IsSet(reply, "data")
    requires e.Get? || e.Post?
    ensures var s1 := Step(cfg, s, Login(now, reply)).state;
      LoggedOut(s1) && Step(cfg, s1, e).calls == [] && Step(cfg, s1, e).result == Null
  {
  }

  // ---------------------------------------------------------------------
  // request, get, post

  /** Without a valid ticket a request returns null and calls nothing. */
  lemma RequestRefusedWithoutTicket(cfg: Config, s: State, now: int, verb: string, path: string,
                                    body: Value, headers: map<string, Value>, reply: Value)
    requires !TicketValid(s, now)
    ensures Request(cfg, s, now, verb, path, body, headers, reply) == Outcome(State(s.ticket, None, None), [], Null)
  {
  }

  /**
   * With a valid ticket, `get` calls the base URL followed by the path and
   * returns the reply's `data`; `post` does the same and sends the held
   * ticket's CSRF token as a header; neither changes the state.
   */
  lemma RequestWithTicket(cfg: Config, s: State, e: Event)
    requires (e.Get? || e.Post?) && TicketValid(s, e.now)
    ensures var o := Step(cfg, s, e);
      && o.state == s
      && o.result == Index(e.reply, "data")
      && |o.calls| == 1
      && o.calls[0].url == MakeLocation(cfg.host, cfg.port) + e.path
      && o.calls[0].body == e.body
      && (e.Get? ==> o.calls[0].verb == GET && o.calls[0].headers == map[])
      && (e.Post? ==> o.calls[0].verb == POST
                      && o.calls[0].headers == map["CSRFPreventionToken" := Index(s.ticket, "CSRFPreventionToken")])
  {
  }

  /**
   * With a valid ticket, `request("get", …)` issues one GET to base URL +
   * path without any header, whatever headers it was given; `request("post",
   * …)` passes the given headers on.
   */
  lemma RequestHeadersOnlyOnPost(cfg: Config, s: State, now: int, path: string, body: Value,
                                 headers: map<string, Value>, reply: Value)
    requires TicketValid(s, now)
    ensures Request(cfg, s, now, "get", path, body, headers, reply).calls
            == [Call(GET, MakeLocation(cfg.host, cfg.port) + path, body, map[])]
    ensures Request(cfg, s, now, "post", path, body, headers, reply).calls
            == [Call(POST, MakeLocation(cfg.host, cfg.port) + path, body, headers)]
  {
  }

  /** A method name other than `get` or `post` yields an empty array and no call. */
  lemma OtherMethodReturnsEmpty(cfg: Config, s: State, now: int, verb: string, path: string,
                                body: Value, headers: map<string, Value>, reply: Value)
    requires TicketValid(s, now) && verb != "get" && verb != "post"
    ensures Request(cfg, s, now, verb, path, body, headers, reply) == Outcome(s, [], List([]))
  {
  }

  // ---------------------------------------------------------------------
  // Sequences of operations

  /** Every call a step issues goes to this client's base URL. */
  lemma StepCallsOnApi(cfg: Config, s: State, e: Event)
    ensures forall c :: c in Step(cfg, s, e).calls ==> OnApi(cfg, c)
  {
  }

  /** Every call any sequence of operations issues goes to this client's base URL. */
  lemma {:induction false} CallsStayOnApi(cfg: Config, s: State, events: seq<Event>)
    ensures forall c :: c in Run(cfg, s, events).calls ==> OnApi(cfg, c)
    decreases |events|
  {
    if events != [] {
      var o := Step(cfg, s, events[0]);
      StepCallsOnApi(cfg, s, events[0]);
      CallsStayOnApi(cfg, o.state, events[1..]);
    }
  }

  /**
   * Logged out and never logging in, the client issues no call at all and
   * stays logged out, however many `get`, `post` and `logout` it is asked for.
   */
  lemma {:induction false} NoTrafficWithoutLogin(cfg: Config, s: State, events: seq<Event>)
    requires LoggedOut(s)
    requires forall i :: 0 <= i < |events| ==> !events[i].Login?
    ensures Run(cfg, s, events).calls == []
    ensures LoggedOut(Run(cfg, s, events).state)
    decreases |events|
  {
    if events != [] {
      var o := Step(cfg, s, events[0]);
      assert LoggedOut(o.state) && o.calls == [];
      NoTrafficWithoutLogin(cfg, o.state, events[1..]);
    }
  }

  /**
   * A ticket stamped at `t` carries any sequence of `login`, `get` and `post`
   * made at time `t` or later: the state never changes, no login is sent
   * again, and every request issues exactly one call.
   */
  lemma {:induction false} TicketOutlivesRequests(cfg: Config, s: State, t: int, events: seq<Event>)
    requires !LoggedOut(s) && s.timestamp == Some(t)
    requires forall i :: 0 <= i < |events| ==> !events[i].Logout? && events[i].now >= t
    ensures Run(cfg, s, events).state == s
    ensures |Run(cfg, s, events).calls| == RequestCount(events)
    decreases |events|
  {
    if events != [] {
      var e := events[0];
      StampedTicketNeverExpires(s, t, e.now);
      var o := Step(cfg, s, e);
      assert o.state == s;
      assert |o.calls| == if e.Get? || e.Post? then 1 else 0;
      TicketOutlivesRequests(cfg, s, t, events[1..]);
    }
  }

  /** `Run` over a concatenation is `Run` over the first part, then over the second. */
  lemma {:induction false} RunAppend(cfg: Config, s: State, first: seq<Event>, second: seq<Event>)
    ensures var t1 := Run(cfg, s, first);
      Run(cfg, s, first + second) == Trace(Run(cfg, t1.state, second).state, t1.calls + Run(cfg, t1.state, second).calls)
    decreases |first|
  {
    if first == [] {
      assert first + second == second;
    } else {
      var o := Step(cfg, s, first[0]);
      assert (first + second)[0] == first[0];
      assert (first + second)[1..] == first[1..] + second;
      RunAppend(cfg, o.state, first[1..], second);
      var t1 := Run(cfg, o.state, first[1..]);
      var t2 := Run(cfg, t1.state, second);
      assert o.calls + (t1.calls + t2.calls) == (o.calls + t1.calls) + t2.calls;
    }
  }

  /** Whatever happened before, a trailing logout leaves the client logged out with nothing stored. */
  lemma {:induction false} LogoutEndsAnySession(cfg: Config, s: State, events: seq<Event>, now: int)
    ensures Run(cfg, s, events + [Logout]).state == State(Null, None, None)
    ensures !TicketValid(Run(cfg, s, events + [Logout]).state, now)
  {
    RunAppend(cfg, s, events, [Logout]);
  }

  // ---------------------------------------------------------------------
  // Findings: the expiry test

  /**
   * As written, the expiry test compares the login time with `now + 7200`,
   * so a ticket stamped at `t` is still honoured two hours later and at
   * every time after that.
   */
  lemma ExpiryNeverTriggersAsWritten(s: State, t: int)
    requires !LoggedOut(s) && s.timestamp == Some(t)
    ensures TicketValid(s, t + ValidityWindow)
    ensures TicketValid(s, t + 10 * ValidityWindow)
  {
    StampedTicketNeverExpires(s, t, t + ValidityWindow);
    StampedTicketNeverExpires(s, t, t + 10 * ValidityWindow);
  }

  /** The evidently intended test: the window has elapsed since the login time (an unset time counts as elapsed). */
  predicate ExpiredIntended(timestamp: Option<int>, now: int) {
    timestamp.None? || now >= timestamp.value + ValidityWindow
  }

  predicate TicketValidIntended(s: State, now: int) {
    !LoggedOut(s) && !ExpiredIntended(s.timestamp, now)
  }

  /** With the intended test, a ticket stamped at `t` is honoured exactly while the clock is before `t + 7200`. */
  lemma IntendedWindow(s: State, t: int, now: int)
    requires !LoggedOut(s) && s.timestamp == Some(t)
    ensures TicketValidIntended(s, now) <==> now < t + ValidityWindow
  {
  }

  // ---------------------------------------------------------------------
  // Findings: a failed check does not discard the ticket

  /**
   * As written, a failed check clears the timestamp but keeps the ticket,
   * and a null timestamp never expires: the very next check, at any time,
   * accepts the ticket it has just rejected.
   */
  lemma RejectedTicketRevives(s: State, now: int, later: int)
    requires !LoggedOut(s) && ExpiredAsWritten(s.timestamp, now)
    ensures !TicketValid(s, now)
    ensures TicketValid(Checked(s, now), later)
  {
  }

  /** The evidently intended check: a rejected ticket is discarded along with its timestamp and cookie. */
  function CheckedIntended(s: State, now: int): State {
    if TicketValidIntended(s, now) then s else State(Null, None, None)
  }

  /** With the intended check, once a ticket is rejected no later check accepts anything until a new login. */
  lemma RejectedTicketStaysRejected(s: State, now: int, later: int)
    requires !TicketValidIntended(s, now)
    ensures !TicketValidIntended(CheckedIntended(s, now), later)
    ensures CheckedIntended(CheckedIntended(s, now), later) == CheckedIntended(s, now)
  {
  }

  /**
   * As written, a login whose reply has no `data`, made while a ticket is
   * held but rejected, keeps that ticket with a null timestamp and no
   * cookie: the next `get` or `post`, at any time, is let through and goes
   * out without the `PVEAuthCookie` cookie.
   */
  lemma FailedLoginLeavesRejectedTicket(cfg: Config, s: State, now: int, reply: Value, e: Event)
    requires !LoggedOut(s) && ExpiredAsWritten(s.timestamp, now) && !IsSet(reply, "data")
    requires e.Get? || e.Post?
    ensures var s1 := Step(cfg, s, Login(now, reply)).state;
      && s1 == State(s.ticket, None, None)
      && |Step(cfg, s1, e).calls| == 1
      && Step(cfg, s1, e).state.cookie == None
  {
  }

  /** The login step with the intended check: a rejected ticket is discarded before the credentials are sent. */
  function LoginIntended(s: State, now: int, reply: Value): State {
    if TicketValidIntended(s, now) then s
    else if IsSet(reply, "data") then Authenticated(Index(reply, "data"), now)
    else CheckedIntended(s, now)
  }

  /** With the intended check, a login whose reply has no `data` leaves the client logged out from any state it was not already validly in. */
  lemma FailedLoginLogsOutIntended(s: State, now: int, reply: Value, later: int)
    requires !TicketValidIntended(s, now) && !IsSet(reply, "data")
    ensures LoggedOut(LoginIntended(s, now, reply))
    ensures LoginIntended(s, now, reply).cookie == None
    ensures !TicketValidIntended(LoginIntended(s, now, reply), later)
  {
  }
}
