# PVE API client: session-ticket state machine

This project models the session handling of the Proxmox VE API client used
by the Icinga Web 2 PVE module (`library/Pve/Api.php`). The client logs in
by posting credentials to `/access/ticket` and keeps the returned ticket,
the time it was stored, and a `PVEAuthCookie` cookie on its transport. It
refuses `get` and `post` while no valid ticket is held, and forgets
everything on logout.

Layout:

- `wrappers.dfy`: `Option`.
- `json.dfy`: a decoded JSON reply, with PHP's `$v['key']`, `isset` and `== null` on it.
- `url.dfy`: `makeLocation` (`https://host:port/api2/json`) and its inverse.
- `session.dfy`: the state machine as pure functions (`Step` per operation, `Run` over a sequence of operations) and its properties.
- `api.dfy`: the class `Api`. Its fields are `loginTicket`, `loginTimestamp`, the transport's cookie slot and a ghost log of transport calls. Each method is proved to do exactly what `Session.Step` prescribes.

The clock reading `now` and the server's decoded reply are parameters of
each operation. A call is recorded in the log `sent` whenever the code hands
one to its transport.

The model follows the code literally where the code departs from what its
authors evidently meant:

- The expiry test stays `timestamp >= now + 7200`.
- A failed check clears the timestamp but not the ticket.

These are listed under "## Findings", with the intended definitions proved
beside them. The class keeps the code's behaviour because it models the code.

Some behaviour of the code is easy to miss:

- Only `https` URLs are built. `library/Pve/Api.php:91` hard-codes the scheme, and the constructor at `library/Pve/Api.php:47` takes no scheme argument. The import hook offers HTTP as a choice (`library/Pve/ProvidedHook/Director/ImportSource.php:116-130`) and passes the chosen scheme as a sixth argument (`library/Pve/ProvidedHook/Director/ImportSource.php:219-226`), which PHP drops.
- The CSRF token is not a separate field. `post` reads it from the stored ticket's `CSRFPreventionToken` entry (`library/Pve/Api.php:117`).
- Login success depends only on `isset($result['data'])` (`library/Pve/Api.php:162-166`). It succeeds even without a `ticket` entry, and the cookie then holds null.
- `loginTicket == null` at `library/Pve/Api.php:101` is a PHP loose comparison. An empty `data` array is therefore stored but never counts as a valid ticket.

## Model

| member | source | states |
|---|---|---|
| `Url.Decimal` | library/Pve/Api.php:91 | an integer port is rendered as a non-empty string of decimal digits with no leading zero (unless the port is 0) |
| `Url.ParseDecimalOfDecimal` | library/Pve/Api.php:91 | reading the rendered port back gives the port |
| `Url.ParseMakeLocation` | library/Pve/Api.php:89-92 | the base URL is always an `https` URL, whatever scheme the caller configured, and host and port are recovered from it exactly, even for hosts containing colons |
| `Session.CheckEffect` | library/Pve/Api.php:99-108 | the check fails exactly when the ticket is loosely null or the timestamp is at least `now + 7200`; on failure the timestamp and cookie are cleared and the ticket kept; on success nothing changes |
| `Session.StampedTicketNeverExpires` | library/Pve/Api.php:101 | a ticket stamped at `t` passes the check at every `now >= t` |
| `Session.LogoutClears` | library/Pve/Api.php:173-178 | from any state, logout leaves no ticket, no timestamp and no cookie, issues no call, and no check passes afterwards |
| `Session.LoginWhileValidIsNoop` | library/Pve/Api.php:146-150 | with a valid ticket, login issues no call and changes no state |
| `Session.LoginStoresData` | library/Pve/Api.php:152-167 | otherwise login posts the credentials to `base/access/ticket`; a reply with `data` stores `data` as the ticket, `now` as the timestamp, and `data['ticket']` as `PVEAuthCookie` |
| `Session.LoginIdempotent` | library/Pve/Api.php:146-167 | after a login that stored a non-empty ticket, a second login at the same or a later time issues no call and changes nothing |
| `Session.FailedLoginRefusesRequests` | library/Pve/Api.php:122-167 | from a logged-out state, a login reply without `data` stores nothing, and the next `get` or `post` returns null without a call |
| `Session.RequestRefusedWithoutTicket` | library/Pve/Api.php:122-126 | without a valid ticket a request returns null, issues no call, and leaves the check's cleared state |
| `Session.RequestWithTicket` | library/Pve/Api.php:110-138 | with a valid ticket, `get` and `post` issue exactly one call to base URL + path with the given body and return the reply's `data`; `post` sends the ticket's `CSRFPreventionToken` as a header; the state is unchanged |
| `Session.RequestHeadersOnlyOnPost` | library/Pve/Api.php:128-135 | with a valid ticket, `request("get")` sends one GET to base URL + path with no header whatever headers it is given, and `request("post")` sends one POST carrying the given headers |
| `Session.OtherMethodReturnsEmpty` | library/Pve/Api.php:129-138 | with a valid ticket, a method other than `get`/`post` returns an empty array and issues no call |
| `Session.StepCallsOnApi` | library/Pve/Api.php:122-167 | every call a single operation issues goes to the client's base URL |
| `Session.CallsStayOnApi` | library/Pve/Api.php:122-167 | every call any sequence of operations issues goes to the client's base URL |
| `Session.NoTrafficWithoutLogin` | library/Pve/Api.php:110-178 | a logged-out client that is never asked to log in issues no call at all and stays logged out |
| `Session.TicketOutlivesRequests` | library/Pve/Api.php:99-167 | a ticket stamped at `t` survives any sequence of logins and requests made at `t` or later: the state never changes and each request issues exactly one call |
| `Session.LogoutEndsAnySession` | library/Pve/Api.php:173-178 | after any history, a final logout leaves nothing stored and no valid ticket |
| `Session.ExpiryNeverTriggersAsWritten` | library/Pve/Api.php:101 | as written, a ticket stamped at `t` is still accepted at `t + 7200` and long after |
| `Session.IntendedWindow` | library/Pve/Api.php:101 | with the intended test, a ticket stamped at `t` is accepted exactly while `now < t + 7200` |
| `Session.RejectedTicketRevives` | library/Pve/Api.php:101-104 | as written, a ticket the check rejects is accepted by the next check, at any time |
| `Session.RejectedTicketStaysRejected` | library/Pve/Api.php:99-108 | with the intended check, a rejected ticket is discarded and stays rejected |
| `Session.FailedLoginLeavesRejectedTicket` | library/Pve/Api.php:146-167 | as written, a login without `data` made while a ticket is held but rejected keeps that ticket with a null timestamp and no cookie, and the next `get` or `post` issues a call without the `PVEAuthCookie` cookie |
| `Session.FailedLoginLogsOutIntended` | library/Pve/Api.php:146-167 | with the intended check, a login without `data` from any state without a valid ticket leaves no ticket and no cookie, and no later check accepts anything |
| `PveApi.Api.constructor` | library/Pve/Api.php:33-54 | a new client keeps its settings, holds no ticket, has timestamp 0 and no cookie, and has issued no call |
| `PveApi.Api.HasValidTicket` | library/Pve/Api.php:99-108 | returns whether the held ticket is valid; the new state is the check's state |
| `PveApi.Api.Request` | library/Pve/Api.php:122-139 | state, issued calls and result are those of `Session.Request`: a GET is handed to the transport without headers, a POST with them |
| `PveApi.Api.Get` | library/Pve/Api.php:110-113 | state, issued calls and result are those of the `get` step |
| `PveApi.Api.Post` | library/Pve/Api.php:115-120 | state, issued calls and result are those of the `post` step; the CSRF header is read before the ticket check |
| `PveApi.Api.Login` | library/Pve/Api.php:146-168 | state and issued calls are those of the `login` step |
| `PveApi.Api.Logout` | library/Pve/Api.php:173-178 | the state is the `logout` step's state and no call is issued |

## Left out

- `library/Pve/ProvidedHook/Director/ImportSource.php` is not part of this model. It is plugin glue: form fields, settings lookup, lazy construction of the client and TLS switches.
- Listing VMs, nodes and pools is not modelled. The import hook calls `getVMs`, `getNodes` and `getPools`, but `Api.php` does not define them.
- `CurlLoader` is not part of this model. Its transport becomes `Api.Send`, which records the call and returns the reply given as a parameter. Its cookie jar becomes one cookie slot. Its TLS switches are not modelled.
- The login body's form encoding (`http_build_query`) is not modelled. The body is recorded as an object holding `realm`, `username` and `password`.
- The wall clock (`time()`) is the parameter `now`.
- The lazy creation of the transport in `curl()` and the getters `host()` and `port()` are not modelled. The class reads its constant fields directly.
- PHP's `null >= int` is modelled as false: a null timestamp never counts as expired.
- `Json.Index` handles only non-numeric string keys. A numeric key such as `"0"`, which PHP would also look up in a list, is not modelled. The client only uses `data`, `ticket` and `CSRFPreventionToken`.
- Indexing a reply that is a string or a number gives null in the model. PHP would warn or raise an error there.
- JSON floating-point numbers are not modelled.
- Url.Decimal: only canonical decimal ports are modelled. The port reaches `Api` as the raw text of a setting (`library/Pve/ProvidedHook/Director/ImportSource.php:217`), and `sprintf` inserts it unchanged. Ports with leading zeros, spaces, other text or a minus sign cannot be expressed, because the model takes the port as a natural number, as the `@param integer` at `library/Pve/Api.php:42` declares.

## Findings

| source | as written | input that shows it | evidently intended | confidence | as-written member | corrected member |
|---|---|---|---|---|---|---|
| library/Pve/Api.php:101 | a ticket counts as expired when `loginTimestamp >= time() + 7200` | a ticket stored at time `t` and checked at `t + 7200`, or at any later time, is still accepted | expired once `now >= loginTimestamp + 7200` | high, not executed | `Session.ExpiryNeverTriggersAsWritten` | `Session.IntendedWindow` |
| library/Pve/Api.php:101-104 | a failed check nulls the timestamp but keeps the ticket, and a null timestamp never counts as expired | a non-empty ticket stamped at `t`, checked at `now <= t - 7200` (clock set back): rejected; checked again at any time: accepted. The same happens through `login`: a login at such a `now` whose reply has no `data` keeps the rejected ticket with a null timestamp and a forgotten cookie, so the next `get` or `post` goes out without `PVEAuthCookie` (`Session.FailedLoginLeavesRejectedTicket`) | a rejected ticket is discarded | medium, not executed | `Session.RejectedTicketRevives` | `Session.RejectedTicketStaysRejected` |
| library/Pve/Api.php:146-167 | a login whose reply has no `data` leaves a rejected ticket in place, with its cookie forgotten | a non-empty ticket stamped at `t`; `login` at `now <= t - 7200` with a reply lacking `data`; then `get` at any time: the call is issued without the `PVEAuthCookie` cookie | a failed login leaves the client logged out | medium, not executed | `Session.FailedLoginLeavesRejectedTicket` | `Session.FailedLoginLogsOutIntended` |
