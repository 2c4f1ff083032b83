/**
  The browser side of session refresh: one shared refresh in flight, and a retry-once rule
  for unauthorized responses.
 */
module ApiClient {
  import opened Options
  import opened RefreshSessions

  datatype Phase = InFlight | AwaitingRefresh | Succeeded | Failed

  datatype Request = Request(skipAuthRefresh: bool, retry: bool, sends: nat, phase: Phase)

  /** The pending refresh: its call on the server and the cookie it was sent with. */
  datatype Refresh = Refresh(call: Id, presented: Option<Id>)

  /** `sessions` are all sessions the client signed in to; `expiries` counts the calls of its session-expired handler. */
  datatype Client = Client(
    sessions: set<Id>, cookie: Option<Id>, accessToken: Option<Id>,
    refresh: Option<Refresh>, requests: map<Id, Request>, expiries: nat)

  const NEW_CLIENT: Client := Client({}, None, None, None, map[], 0)

  // ----- Interceptor logic

  /** The shared refresh: the pending one if there is one, and otherwise a new one. */
  function RefreshAccess(c: Client, call: Id): Client {
    if c.refresh.Some? then c else c.(refresh := Some(Refresh(call, c.cookie)))
  }

  function OnUnauthorized(c: Client, request: Id, call: Id): Client
    requires request in c.requests
  {
    var r := c.requests[request];
    if r.retry || r.skipAuthRefresh then c.(requests := c.requests[request := r.(phase := Failed)])
    else RefreshAccess(c.(requests := c.requests[request := r.(retry := true, phase := AwaitingRefresh)]), call)
  }

  function Resume(r: Request, refreshed: bool): Request {
    if !r.phase.AwaitingRefresh? then r
    else if refreshed then r.(phase := InFlight, sends := r.sends + 1)
    else r.(phase := Failed)
  }

  function ResumeAll(requests: map<Id, Request>, refreshed: bool): map<Id, Request> {
    map r | r in requests :: Resume(requests[r], refreshed)
  }

  function OnRefreshed(c: Client, replacement: Id, accessToken: Id): Client {
    c.(cookie := Some(replacement), accessToken := Some(accessToken), refresh := None,
       requests := ResumeAll(c.requests, true))
  }

  function Waiters(requests: map<Id, Request>): set<Id> {
    set r | r in requests && requests[r].phase.AwaitingRefresh?
  }

  /** Every request that waited on a failed refresh clears the access token and reports the session as expired. */
  function OnRefreshFailed(c: Client): Client {
    c.(refresh := None, requests := ResumeAll(c.requests, false),
       accessToken := if Waiters(c.requests) != {} then None else c.accessToken,
       expiries := c.expiries + |Waiters(c.requests)|)
  }

  /** A successful login: its cookie replaces any other. */
  function OnSignedIn(c: Client, session: Id, token: Id, accessToken: Id): Client {
    c.(sessions := c.sessions + {session}, cookie := Some(token), accessToken := Some(accessToken))
  }

  /** The module variables of the client and the requests it has under way. */
  class ApiModule {
    var cookie: Option<Id>
    var accessToken: Option<Id>
    var refreshPromise: Option<Refresh>
    var requests: map<Id, Request>
    var expiries: nat
    ghost var sessions: set<Id>

    ghost function Contents(): Client
      reads this
    {
      Client(sessions, cookie, accessToken, refreshPromise, requests, expiries)
    }

    constructor ()
      ensures Contents() == NEW_CLIENT
    {
      sessions, cookie, accessToken, refreshPromise, requests, expiries := {}, None, None, None, map[], 0;
    }

    method HandleSignedIn(session: Id, token: Id, newAccessToken: Id)
      modifies this`sessions, this`cookie, this`accessToken
      ensures Contents() == OnSignedIn(old(Contents()), session, token, newAccessToken)
    {
      cookie := Some(token);
      accessToken := Some(newAccessToken);
      sessions := sessions + {session};
    }

    method StartRefresh(call: Id)
      modifies this`refreshPromise
      ensures Contents() == RefreshAccess(old(Contents()), call)
    {
      if refreshPromise.None? {
        refreshPromise := Some(Refresh(call, cookie));
      }
    }

    method HandleUnauthorized(request: Id, call: Id)
      requires request in requests
      modifies this`requests, this`refreshPromise
      ensures Contents() == OnUnauthorized(old(Contents()), request, call)
    {
      var r := requests[request];
      if r.retry || r.skipAuthRefresh {
        requests := requests[request := r.(phase := Failed)];
        return;
      }
      requests := requests[request := r.(retry := true, phase := AwaitingRefresh)];
      StartRefresh(call);
    }

    method HandleRefreshed(replacement: Id, newAccessToken: Id)
      modifies this
      ensures Contents() == OnRefreshed(old(Contents()), replacement, newAccessToken)
    {
      cookie := Some(replacement);
      accessToken := Some(newAccessToken);
      refreshPromise := None;
      requests := ResumeAll(requests, true);
    }

    method HandleRefreshFailed()
      modifies this
      ensures Contents() == OnRefreshFailed(old(Contents()))
    {
      refreshPromise := None;
      var waiters := Waiters(requests);
      if waiters != {} {
        accessToken := None;
      }
      expiries := expiries + |waiters|;
      requests := ResumeAll(requests, false);
    }
  }
}
