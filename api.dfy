/**
 * The API client object. Its fields are the ones the code updates in place
 * (`loginTicket`, `loginTimestamp`) plus the cookie slot of its transport;
 * every public method is proved to do exactly what `Session.Step` says the
 * matching operation does, including the calls it hands to the transport.
 */
module PveApi {
  import opened Wrappers
  import opened Json
  import opened Url
  import opened Session

  class Api {
    const host: string
    const port: nat
    const realm: string
    const user: string
    const pass: string

    var loginTimestamp: Option<int>
    var loginTicket: Value
    /** The transport's cookie jar: `addCookie` fills it, `forgetCookie` empties it. */
    var cookie: Option<Cookie>
    /** Every call handed to the transport so far, oldest first. */
    ghost var sent: seq<Call>

    function Settings(): Config {
      Config(host, port, realm, user, pass)
    }

    function Current(): State
      reads this
    {
      State(loginTicket, loginTimestamp, cookie)
    }

    constructor (host: string, port: nat, realm: string, user: string, pass: string)
      ensures Settings() == Config(host, port, realm, user, pass)
      ensures Current() == Initial && sent == []
    {
      this.host := host;
      this.port := port;
      this.realm := realm;
      this.user := user;
      this.pass := pass;
      loginTimestamp := Some(0);
      loginTicket := Null;
      cookie := None;
      sent := [];
    }

    /** Hands one call to the transport; `reply` is what the server answers. */
    method Send(call: Call, reply: Value) returns (response: Value)
      modifies this`sent
      ensures sent == old(sent) + [call] && response == reply
    {
      sent := sent + [call];
      response := reply;
    }

    method HasValidTicket(now: int) returns (valid: bool)
      modifies this`loginTimestamp, this`cookie
      ensures valid == TicketValid(old(Current()), now)
      ensures Current() == Checked(old(Current()), now)
    {
      if LooselyNull(loginTicket) || (loginTimestamp.Some? && loginTimestamp.value >= now + ValidityWindow) {
        loginTimestamp := None;
        cookie := None;
        valid := false;
      } else {
        valid := true;
      }
    }

    method Request(now: int, verb: string, path: string, body: Value, headers: map<string, Value>, reply: Value)
      returns (r: Value)
      modifies this`loginTimestamp, this`cookie, this`sent
      ensures var o := Session.Request(Settings(), old(Current()), now, verb, path, body, headers, reply);
        Current() == o.state && sent == old(sent) + o.calls && r == o.result
    {
      var valid := HasValidTicket(now);
      if !valid {
        return Null;
      }
      var url := MakeLocation(host, port) + path;
      if verb == "get" {
        var response := Send(Call(GET, url, body, map[]), reply);
        r := Index(response, "data");
      } else if verb == "post" {
        var response := Send(Call(POST, url, body, headers), reply);
        r := Index(response, "data");
      } else {
        r := List([]);
      }
    }

    method Get(now: int, path: string, body: Value, reply: Value) returns (r: Value)
      modifies this`loginTimestamp, this`cookie, this`sent
      ensures var o := Step(Settings(), old(Current()), Session.Get(now, path, body, reply));
        Current() == o.state && sent == old(sent) + o.calls && r == o.result
    {
      r := Request(now, "get", path, body, map[], reply);
    }

    method Post(now: int, path: string, body: Value, reply: Value) returns (r: Value)
      modifies this`loginTimestamp, this`cookie, this`sent
      ensures var o := Step(Settings(), old(Current()), Session.Post(now, path, body, reply));
        Current() == o.state && sent == old(sent) + o.calls && r == o.result
    {
      var headers := map[CsrfHeader := Index(loginTicket, CsrfHeader)];
      r := Request(now, "post", path, body, headers, reply);
    }

    method Login(now: int, reply: Value)
      modifies this`loginTimestamp, this`loginTicket, this`cookie, this`sent
      ensures var o := Step(Settings(), old(Current()), Session.Login(now, reply));
        Current() == o.state && sent == old(sent) + o.calls
    {
      var valid := HasValidTicket(now);
      if valid {
        return;
      }
      var body := LoginBody(Settings());
      var url := MakeLocation(host, port) + TicketPath;
      var result := Send(Call(POST, url, body, map[]), reply);
      if IsSet(result, "data") {
        loginTimestamp := Some(now);
        loginTicket := Index(result, "data");
        cookie := Some(Cookie(CookieName, Index(loginTicket, "ticket")));
      }
    }

    method Logout()
      modifies this`loginTimestamp, this`loginTicket, this`cookie
      ensures Current() == Step(Settings(), old(Current()), Session.Logout).state
      ensures sent == old(sent)
    {
      loginTimestamp := None;
      loginTicket := Null;
      cookie := None;
    }
  }

  /**
   * A client's life as callers see it: requests before login are refused
   * without traffic, a login without `data` stores nothing, a login with
   * `data` lets `get` through to the API, and logout forgets everything.
   */
  method ClientScenario(host: string, port: nat, ticket: string, now: int, later: int, listing: Value)
    requires later >= now
  {
    var api := new Api(host, port, "pam", "root", "secret");
    var r := api.Get(now, "/nodes", Object(map[]), Object(map["data" := listing]));
    assert r == Null && api.sent == [];

    api.Login(now, Object(map[]));
    assert api.sent == [LoginCall(api.Settings())] && api.Current().ticket == Null;
    r := api.Post(now, "/pools", Object(map[]), Object(map["data" := listing]));
    assert r == Null && |api.sent| == 1;

    var data := Object(map["ticket" := Str(ticket), "CSRFPreventionToken" := Str("token")]);
    api.Login(now, Object(map["data" := data]));
    assert api.Current() == State(data, Some(now), Some(Cookie("PVEAuthCookie", Str(ticket))));

    r := api.Get(later, "/nodes", Object(map[]), Object(map["data" := listing]));
    assert r == listing && |api.sent| == 3;
    assert api.sent[2].url == MakeLocation(host, port) + "/nodes";

    api.Login(later, Object(map[]));
    assert |api.sent| == 3;

    api.Logout();
    assert api.Current() == State(Null, None, None);
  }
}
