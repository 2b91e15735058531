/** The authenticated request client: bearer headers, error messages, body
    selection, and the refresh coordination that lets one refresh request
    serve every call that was answered 401 while it was in flight.

    Every asynchronous step is an event delivered in sequence: a call and the
    reply to its request, the reply to the refresh request, and the reply to
    the replay of the call that started the refresh. */
module Api {
  import opened Wrappers
  import opened Strings
  import opened Json
  import opened Session

  /** Request headers keyed by lower-case name (header names are
      case-insensitive). */
  type Headers = map<string, string>

  const ContentType := "content-type"
  const Authorization := "authorization"
  const JsonMediaType := "application/json"
  const RefreshEndpoint := "/auth/refresh"
  const SessionExpired := "Session expired."
  const RefreshFailed := "Failed to refresh token."
  const UnknownError := "An unknown error occurred."

  function Bearer(token: string): string {
    "Bearer " + token
  }

  /** What a caller passes besides the endpoint; the method and other options
      are passed through untouched and are not modelled. */
  datatype Options = Options(headers: Headers, body: Option<string>)

  /** A received HTTP response: `json` is what `response.json()` resolves to,
      `None` when the body is not JSON. */
  datatype Response = Response(status: int, contentType: Option<string>, json: Option<Json>)

  /** How a request issued with `fetch` ends. */
  datatype Reply = NetworkError(message: string) | Received(response: Response)

  predicate IsOk(status: int) {
    200 <= status <= 299
  }

  // ---------------------------------------------------------------------------
  // Deterministic rules
  // ---------------------------------------------------------------------------

  /** The headers of an outgoing call: the caller's, with a JSON content type
      forced whenever there is a body and a bearer token whenever one is
      stored. Nothing else is added or changed. */
  function RequestHeaders(caller: Headers, body: Option<string>, token: Option<string>): (h: Headers)
    ensures HasText(body) ==> ContentType in h && h[ContentType] == JsonMediaType
    ensures HasText(token) ==> Authorization in h && h[Authorization] == Bearer(token.value)
    ensures forall k :: (k in caller && !(k == ContentType && HasText(body))
                         && !(k == Authorization && HasText(token))) ==> k in h && h[k] == caller[k]
    ensures forall k :: k in h ==> k in caller || (k == ContentType && HasText(body))
                                    || (k == Authorization && HasText(token))
  {
    var withType := if HasText(body) then caller[ContentType := JsonMediaType] else caller;
    if HasText(token) then withType[Authorization := Bearer(token.value)] else withType
  }

  /** The message a failed (non-2xx, non-401) call rejects with: the body's
      `message` when it is truthy, "HTTP Error: <status>" for a JSON body
      without one, the generic text when the body is not JSON. */
  function FailureMessage(status: int, json: Option<Json>): (m: string)
    ensures json.None? ==> m == UnknownError
    ensures json == Some(Null) ==> m == TypeErrorText
    ensures json.Some? && json.value.Obj? && Present(Lookup(json.value.members, "message"))
            ==> m == ToText(Lookup(json.value.members, "message").value)
    ensures json.Some? && !json.value.Null? && !Present(Member(json.value, "message").value)
            ==> m == "HTTP Error: " + IntText(status)
  {
    match json
    case None => UnknownError
    case Some(body) =>
      match Member(body, "message")
      case Err(e) => e
      case Ok(message) => if Present(message) then ToText(message.value) else "HTTP Error: " + IntText(status)
  }

  /** The generic message names the status, which can be read back from it. */
  lemma FailureMessageNamesStatus(status: int, json: Option<Json>)
    requires json.Some? && !json.value.Null? && !Present(Member(json.value, "message").value)
    ensures var m := FailureMessage(status, json);
            |m| > 12 && m[..12] == "HTTP Error: " && ParseInt(m[12..]) == Some(status)
  {
    var m := FailureMessage(status, json);
    assert m[12..] == IntText(status);
    ParseIntRoundTrip(status);
  }

  /** What a 2xx call resolves to: the parsed body when the declared content
      type mentions JSON, `{}` otherwise. */
  function SuccessValue(r: Response): (v: Result<Json>)
    ensures !(HasText(r.contentType) && Contains(r.contentType.value, JsonMediaType)) ==> v == Ok(Obj([]))
    ensures HasText(r.contentType) && Contains(r.contentType.value, JsonMediaType)
            ==> (v.Ok? <==> r.json.Some?) && (r.json.Some? ==> v.value == r.json.value)
  {
    if HasText(r.contentType) && Contains(r.contentType.value, JsonMediaType) then
      match r.json
      case Some(j) => Ok(j)
      case None => Err(SyntaxErrorText)
    else Ok(Obj([]))
  }

  // ---------------------------------------------------------------------------
  // Refresh coordination
  // ---------------------------------------------------------------------------

  /** A call waiting for a new access token: its endpoint, options and the
      headers it was sent with. `ticket` identifies the call. */
  datatype Waiter = Waiter(ticket: nat, endpoint: string, options: Options, headers: Headers)

  /** A request the client issued. */
  datatype Fetch =
    | ApiFetch(endpoint: string, headers: Headers, body: Option<string>)
    | RefreshFetch(refreshToken: string)

  /** How `processQueue` settles one waiter. */
  datatype Settlement = Resolved(waiter: Waiter, token: string) | Rejected(waiter: Waiter, error: string)

  /** `processQueue(error, token)`: every waiter, in queue order, rejected
      with the error when there is one and resolved with the token otherwise. */
  function Settle(queue: seq<Waiter>, error: Option<string>, token: string): seq<Settlement>
    decreases |queue|
  {
    if queue == [] then []
    else
      var w := queue[|queue| - 1];
      Settle(queue[..|queue| - 1], error, token)
        + [if error.Some? then Rejected(w, error.value) else Resolved(w, token)]
  }

  /** Settling is uniform: one settlement per waiter, in the same order, all
      rejections or all resolutions. */
  lemma {:induction false} SettleEach(queue: seq<Waiter>, error: Option<string>, token: string)
    ensures |Settle(queue, error, token)| == |queue|
    ensures forall i :: 0 <= i < |queue| ==>
              Settle(queue, error, token)[i]
              == if error.Some? then Rejected(queue[i], error.value) else Resolved(queue[i], token)
    decreases |queue|
  {
    if queue != [] {
      SettleEach(queue[..|queue| - 1], error, token);
    }
  }

  /** A replayed request: the waiter's own request with the new bearer token. */
  function Replay(w: Waiter, token: string): Fetch {
    ApiFetch(w.endpoint, w.headers[Authorization := Bearer(token)], w.options.body)
  }

  /** The requests the resolved waiters replay, in settlement order. */
  function Replays(settled: seq<Settlement>): (fs: seq<Fetch>)
    ensures |fs| <= |settled|
    decreases |settled|
  {
    if settled == [] then []
    else
      var s := settled[|settled| - 1];
      Replays(settled[..|settled| - 1]) + (if s.Resolved? then [Replay(s.waiter, s.token)] else [])
  }

  /** Resolving a queue replays every waiter, in order; rejecting replays none. */
  lemma {:induction false} ReplaysOfSettle(queue: seq<Waiter>, error: Option<string>, token: string)
    ensures error.Some? ==> Replays(Settle(queue, error, token)) == []
    ensures error.None? ==> |Replays(Settle(queue, error, token))| == |queue|
    ensures error.None? ==> forall i :: 0 <= i < |queue| ==>
              Replays(Settle(queue, error, token))[i] == Replay(queue[i], token)
    decreases |queue|
  {
    if queue != [] {
      var front := queue[..|queue| - 1];
      ReplaysOfSettle(front, error, token);
      var s := Settle(queue, error, token);
      assert s[..|s| - 1] == Settle(front, error, token);
    }
  }

  /** What the refresh request's reply yields: the new token pair as
      `setItem` stores it, or the error the refresh chain throws. The reply
      is JSON with a truthy `accessToken` exactly when the refresh succeeds. */
  datatype RefreshReply = RefreshNetworkError(message: string) | RefreshReceived(json: Option<Json>)

  function RefreshTokens(r: RefreshReply): (t: Result<(string, string)>)
    ensures t.Ok? <==> r.RefreshReceived? && r.json.Some? && r.json.value.Obj?
                       && Present(Lookup(r.json.value.members, "accessToken"))
    ensures t.Ok? ==> t.value.0 == ToText(Lookup(r.json.value.members, "accessToken").value)
                      && t.value.1 == OptionText(Lookup(r.json.value.members, "refreshToken"))
    ensures r.RefreshNetworkError? ==> t == Err(r.message)
    ensures (r.RefreshReceived? && r.json.Some? && r.json.value.Obj?
             && !Present(Lookup(r.json.value.members, "accessToken"))) ==> t == Err(RefreshFailed)
  {
    match r
    case RefreshNetworkError(m) => Err(m)
    case RefreshReceived(None) => Err(SyntaxErrorText)
    case RefreshReceived(Some(tokens)) =>
      match Member(tokens, "accessToken")
      case Err(e) => Err(e)
      case Ok(access) =>
        if !Present(access) then Err(RefreshFailed)
        else Ok((ToText(access.value), OptionText(Member(tokens, "refreshToken").value)))
  }

  /** What a call turns into once its request has been answered. */
  datatype CallOutcome =
    | Returned(value: Json)    // resolved with the parsed body or {}
    | Failed(message: string)  // rejected
    | Queued(ticket: nat)      // waiting for the refresh already in flight
    | Refreshing(ticket: nat)  // started the refresh and waits for it

  /** The refresh chain in flight: the call that started it, waiting first
      for the refresh reply and then for the reply to its own replay. */
  datatype Stage = AwaitingTokens | AwaitingReplay
  datatype Chain = Chain(leader: Waiter, stage: Stage)

  /** Where the reply to a call's own request sends it: answered directly
      (resolved or rejected), queued behind the refresh in flight, given up
      for want of a refresh token, or made the caller of the one refresh. */
  datatype Route = Answer(result: Result<Json>) | Wait | GiveUp | StartRefresh

  function RouteOf(reply: Reply, refreshing: bool, refreshToken: Option<string>): (route: Route)
    ensures route.Wait? <==> reply.Received? && reply.response.status == 401 && refreshing
    ensures route.GiveUp? <==> reply.Received? && reply.response.status == 401 && !refreshing && !HasText(refreshToken)
    ensures route.StartRefresh? <==> reply.Received? && reply.response.status == 401 && !refreshing && HasText(refreshToken)
    ensures reply.NetworkError? ==> route == Answer(Err(reply.message))
    ensures reply.Received? && IsOk(reply.response.status) ==> route == Answer(SuccessValue(reply.response))
    ensures reply.Received? && !IsOk(reply.response.status) && reply.response.status != 401
            ==> route == Answer(Err(FailureMessage(reply.response.status, reply.response.json)))
  {
    match reply
    case NetworkError(e) => Answer(Err(e))
    case Received(r) =>
      if IsOk(r.status) then Answer(SuccessValue(r))
      else if r.status != 401 then Answer(Err(FailureMessage(r.status, r.json)))
      else if refreshing then Wait
      else if !HasText(refreshToken) then GiveUp
      else StartRefresh
  }

  /** What the call turns into along a route; `ticket` names the call. */
  function OutcomeOf(route: Route, ticket: nat): CallOutcome {
    match route
    case Answer(Ok(v)) => Returned(v)
    case Answer(Err(m)) => Failed(m)
    case Wait => Queued(ticket)
    case GiveUp => Failed(SessionExpired)
    case StartRefresh => Refreshing(ticket)
  }

  /** How the call that started the refresh ends: with the raw response of
      its replay (no status check, no body selection) or rejected. */
  datatype LeaderResult = LeaderResolved(response: Response) | LeaderRejected(error: string)

  /** The module-level state of the request client: the `isRefreshing` flag,
      the `failedQueue`, and the token store, with a log of the requests
      issued and of the "force-logout" events dispatched. */
  class Client {
    const store: TokenStore
    var refreshing: bool
    var queue: seq<Waiter>
    var chain: Option<Chain>
    var nextTicket: nat
    var fetches: seq<Fetch>
    var logouts: nat

    /** A refresh chain runs only under the flag, and every pending call has
        its own ticket. */
    ghost predicate Valid()
      reads this
    {
      && (chain.Some? ==> refreshing)
      && (forall i :: 0 <= i < |queue| ==> queue[i].ticket < nextTicket)
      && (forall i, j :: 0 <= i < j < |queue| ==> queue[i].ticket < queue[j].ticket)
      && (chain.Some? ==> chain.value.leader.ticket < nextTicket
                          && forall i :: 0 <= i < |queue| ==> queue[i].ticket != chain.value.leader.ticket)
    }

    constructor (store: TokenStore)
      ensures Valid() && this.store == store
      ensures !refreshing && queue == [] && chain == None && fetches == [] && logouts == 0
    {
      this.store := store;
      refreshing := false;
      queue := [];
      chain := None;
      nextTicket := 0;
      fetches := [];
      logouts := 0;
    }

    /** `forceLogout`: both tokens removed and "force-logout" dispatched. */
    method ForceLogout()
      modifies this, store
      ensures store.access == None && store.refresh == None && logouts == old(logouts) + 1
      ensures refreshing == old(refreshing) && queue == old(queue) && chain == old(chain)
      ensures nextTicket == old(nextTicket) && fetches == old(fetches)
    {
      store.Clear();
      logouts := logouts + 1;
    }

    /** `processQueue(error, token)`: settles every waiter in order and
        empties the queue. */
    method ProcessQueue(error: Option<string>, token: string) returns (settled: seq<Settlement>)
      modifies this
      ensures settled == Settle(old(queue), error, token) && queue == []
      ensures refreshing == old(refreshing) && chain == old(chain) && nextTicket == old(nextTicket)
      ensures fetches == old(fetches) && logouts == old(logouts)
    {
      settled := [];
      var i := 0;
      while i < |queue|
        invariant 0 <= i <= |queue|
        invariant settled == Settle(queue[..i], error, token)
      {
        var w := queue[i];
        assert queue[..i + 1][..i] == queue[..i];
        settled := settled + [if error.Some? then Rejected(w, error.value) else Resolved(w, token)];
        i := i + 1;
      }
      assert queue[..|queue|] == queue;
      queue := [];
    }

    /** `apiCall(endpoint, options)` whose request got `reply`. A 401 while a
        refresh is in flight only queues the call; the first 401 raises the
        flag and then either gives up (no refresh token: tokens removed,
        "Session expired.", and the flag is left raised) or issues the one
        refresh request. */
    method Call(endpoint: string, options: Options, reply: Reply) returns (outcome: CallOutcome)
      requires Valid()
      modifies this, store
      ensures Valid()
      ensures nextTicket == old(nextTicket) + 1
      ensures var route := RouteOf(reply, old(refreshing), old(store.refresh));
              var h := RequestHeaders(options.headers, options.body, old(store.access));
              && outcome == OutcomeOf(route, old(nextTicket))
              && fetches == old(fetches) + [ApiFetch(endpoint, h, options.body)]
                            + (if route.StartRefresh? then [RefreshFetch(old(store.refresh).value)] else [])
              && queue == old(queue) + (if route.Wait? then [Waiter(old(nextTicket), endpoint, options, h)] else [])
              && chain == (if route.StartRefresh? then Some(Chain(Waiter(old(nextTicket), endpoint, options, h), AwaitingTokens))
                           else old(chain))
      ensures var route := RouteOf(reply, old(refreshing), old(store.refresh));
              && refreshing == (old(refreshing) || route.GiveUp? || route.StartRefresh?)
              && (route.GiveUp? ==> store.access == None && store.refresh == None && logouts == old(logouts) + 1)
              && (!route.GiveUp? ==> store.access == old(store.access) && store.refresh == old(store.refresh)
                                     && logouts == old(logouts))
    {
      var headers := RequestHeaders(options.headers, options.body, store.access);
      var ticket := nextTicket;
      var route := RouteOf(reply, refreshing, store.refresh);
      nextTicket := nextTicket + 1;
      fetches := fetches + [ApiFetch(endpoint, headers, options.body)];
      var w := Waiter(ticket, endpoint, options, headers);
      match route {
        case Answer(_) =>
        case Wait =>
          queue := queue + [w];
        case GiveUp =>
          refreshing := true;
          ForceLogout();
        case StartRefresh =>
          refreshing := true;
          fetches := fetches + [RefreshFetch(store.refresh.value)];
          chain := Some(Chain(w, AwaitingTokens));
      }
      outcome := OutcomeOf(route, ticket);
    }

    /** The refresh request was answered. On success both tokens are stored,
        every waiter is resolved with the new access token and the call that
        started the refresh is replayed first (the waiters' replays run
        afterwards, in queue order); the flag stays raised until that replay
        is answered. On failure every waiter is rejected with the error, the
        tokens are removed, the call that started the refresh rejects and the
        flag is lowered. */
    method OnRefreshReply(reply: RefreshReply) returns (settled: seq<Settlement>, leader: Option<LeaderResult>)
      requires Valid() && chain.Some? && chain.value.stage == AwaitingTokens
      modifies this, store
      ensures Valid()
      ensures nextTicket == old(nextTicket) && queue == []
      ensures match RefreshTokens(reply)
              case Ok(tokens) =>
                && store.access == Some(tokens.0) && store.refresh == Some(tokens.1)
                && settled == Settle(old(queue), None, tokens.0)
                && fetches == old(fetches) + [Replay(old(chain).value.leader, tokens.0)] + Replays(settled)
                && refreshing && chain == Some(Chain(old(chain).value.leader, AwaitingReplay))
                && leader == None && logouts == old(logouts)
              case Err(e) =>
                && store.access == None && store.refresh == None
                && settled == Settle(old(queue), Some(e), "")
                && fetches == old(fetches)
                && !refreshing && chain == None
                && leader == Some(LeaderRejected(e)) && logouts == old(logouts) + 1
    {
      var w := chain.value.leader;
      match RefreshTokens(reply) {
        case Ok(tokens) =>
          store.Save(tokens.0, tokens.1);
          settled := ProcessQueue(None, tokens.0);
          fetches := fetches + [Replay(w, tokens.0)] + Replays(settled);
          chain := Some(Chain(w, AwaitingReplay));
          leader := None;
        case Err(e) =>
          settled := ProcessQueue(Some(e), "");
          ForceLogout();
          refreshing := false;
          chain := None;
          leader := Some(LeaderRejected(e));
      }
    }

    /** The replay of the call that started the refresh was answered: that
        call resolves with the raw response and the flag is lowered; calls
        queued meanwhile stay queued. A network error instead goes through
        the chain's error path: waiters rejected, tokens removed. */
    method OnReplayReply(reply: Reply) returns (settled: seq<Settlement>, leader: LeaderResult)
      requires Valid() && chain.Some? && chain.value.stage == AwaitingReplay
      modifies this, store
      ensures Valid()
      ensures !refreshing && chain == None && nextTicket == old(nextTicket) && fetches == old(fetches)
      ensures match reply
              case Received(r) =>
                && leader == LeaderResolved(r) && settled == [] && queue == old(queue)
                && store.access == old(store.access) && store.refresh == old(store.refresh)
                && logouts == old(logouts)
              case NetworkError(e) =>
                && leader == LeaderRejected(e) && settled == Settle(old(queue), Some(e), "") && queue == []
                && store.access == None && store.refresh == None
                && logouts == old(logouts) + 1
    {
      match reply {
        case Received(r) =>
          settled := [];
          leader := LeaderResolved(r);
        case NetworkError(e) =>
          settled := ProcessQueue(Some(e), "");
          ForceLogout();
          leader := LeaderRejected(e);
      }
      refreshing := false;
      chain := None;
    }
  }

  /** The number of refresh requests in a log. */
  function RefreshCount(fs: seq<Fetch>): nat
    decreases |fs|
  {
    if fs == [] then 0 else RefreshCount(fs[..|fs| - 1]) + (if fs[|fs| - 1].RefreshFetch? then 1 else 0)
  }

  lemma RefreshCountAppend(a: seq<Fetch>, b: seq<Fetch>)
    ensures RefreshCount(a + b) == RefreshCount(a) + RefreshCount(b)
    decreases |b|
  {
    if b != [] {
      RefreshCountAppend(a, b[..|b| - 1]);
      assert (a + b)[..|a + b| - 1] == a + b[..|b| - 1];
      assert (a + b)[|a + b| - 1] == b[|b| - 1];
    } else {
      assert a + b == a;
    }
  }

  lemma NoRefreshIn(fs: seq<Fetch>)
    requires forall k :: 0 <= k < |fs| ==> fs[k].ApiFetch?
    ensures RefreshCount(fs) == 0
    decreases |fs|
  {
    if fs != [] {
      NoRefreshIn(fs[..|fs| - 1]);
    }
  }

  lemma RefreshCountOfReplays(settled: seq<Settlement>)
    ensures RefreshCount(Replays(settled)) == 0
    decreases |settled|
  {
    if settled != [] {
      var front := settled[..|settled| - 1];
      RefreshCountOfReplays(front);
      var s := settled[|settled| - 1];
      RefreshCountAppend(Replays(front), if s.Resolved? then [Replay(s.waiter, s.token)] else []);
    }
  }

  lemma RefreshCountSnoc(fs: seq<Fetch>, f: Fetch)
    ensures RefreshCount(fs + [f]) == RefreshCount(fs) + (if f.RefreshFetch? then 1 else 0)
  {
    assert (fs + [f])[..|fs|] == fs;
  }

  /** Replaying calls after a refresh never issues another refresh request. */
  lemma ReplayLogCount(before: seq<Fetch>, lead: Waiter, token: string, settled: seq<Settlement>)
    ensures RefreshCount(before + [Replay(lead, token)] + Replays(settled)) == RefreshCount(before)
  {
    RefreshCountOfReplays(settled);
    RefreshCountSnoc(before, Replay(lead, token));
    RefreshCountAppend(before + [Replay(lead, token)], Replays(settled));
  }

  /** A call answered 401 while the refresh is in flight only joins the
      queue: no further refresh request, the chain and the tokens as they were. */
  method WaitingCall(client: Client, endpoint: string, r401: Response)
    requires client.Valid() && client.refreshing && r401.status == 401
    modifies client, client.store
    ensures client.Valid() && client.refreshing && client.chain == old(client.chain)
    ensures |client.queue| == |old(client.queue)| + 1
    ensures RefreshCount(client.fetches) == RefreshCount(old(client.fetches))
    ensures client.store.access == old(client.store.access) && client.store.refresh == old(client.store.refresh)
  {
    ghost var before := client.fetches;
    var outcome := client.Call(endpoint, Options(map[], None), Received(r401));
    ghost var f := client.fetches[|before|];
    assert client.fetches == before + [f];
    RefreshCountSnoc(before, f);
  }

  /** The first call answered 401 on an idle client that holds a refresh
      token issues the one refresh request and leads the chain. */
  method StartingCall(client: Client, endpoint: string, r401: Response)
    requires client.Valid() && !client.refreshing && client.fetches == []
    requires HasText(client.store.refresh) && r401.status == 401
    modifies client, client.store
    ensures client.Valid() && client.refreshing
    ensures client.chain.Some? && client.chain.value.stage == AwaitingTokens
    ensures client.queue == old(client.queue) && RefreshCount(client.fetches) == 1
    ensures client.store.access == old(client.store.access) && client.store.refresh == old(client.store.refresh)
  {
    var outcome := client.Call(endpoint, Options(map[], None), Received(r401));
    var fs := client.fetches;
    assert |fs| == 2 && fs[1].RefreshFetch? && fs[0].ApiFetch?;
    assert fs == [] + [fs[0]] + [fs[1]];
    RefreshCountSnoc([], fs[0]);
    RefreshCountSnoc([] + [fs[0]], fs[1]);
  }

  /** Three calls answered 401 one after another on an idle client that
      holds a refresh token: the first starts the one refresh, the other two
      wait for it. */
  method BurstOfThree(client: Client, r401: Response)
    requires client.Valid() && !client.refreshing && client.fetches == [] && client.queue == []
    requires HasText(client.store.refresh) && r401.status == 401
    modifies client, client.store
    ensures client.Valid() && client.chain.Some? && client.chain.value.stage == AwaitingTokens
    ensures |client.queue| == 2 && RefreshCount(client.fetches) == 1
    ensures client.store.access == old(client.store.access) && client.store.refresh == old(client.store.refresh)
  {
    StartingCall(client, "/accounts/account", r401);
    WaitingCall(client, "/accounts/account/transactions", r401);
    WaitingCall(client, "/general-data/currencies", r401);
  }

  /** Every request in `fs` is a call sent with the bearer `token`. */
  predicate AllBearer(fs: seq<Fetch>, token: string) {
    forall i :: 0 <= i < |fs| ==>
      fs[i].ApiFetch? && Authorization in fs[i].headers && fs[i].headers[Authorization] == Bearer(token)
  }

  /** The leader's replay and the replays of the resolved queue: one per
      call, all with the new bearer token. */
  lemma ReplaysBearer(lead: Waiter, queue: seq<Waiter>, token: string)
    ensures var fs := [Replay(lead, token)] + Replays(Settle(queue, None, token));
            |fs| == |queue| + 1 && AllBearer(fs, token)
  {
    ReplaysOfSettle(queue, None, token);
    var r := Replays(Settle(queue, None, token));
    var fs := [Replay(lead, token)] + r;
    forall i | 0 <= i < |fs|
      ensures fs[i].ApiFetch? && Authorization in fs[i].headers && fs[i].headers[Authorization] == Bearer(token)
    {
      if i > 0 {
        assert fs[i] == r[i - 1] == Replay(queue[i - 1], token);
      }
    }
  }

  /** The refresh request returns tokens: the requests issued next are the
      replays of the calls waiting for them, the leader's first, each with
      the new bearer token, and none of them is a refresh request. */
  method RefreshAnswered(client: Client, tokens: seq<(string, Json)>) returns (replays: seq<Fetch>)
    requires client.Valid() && client.chain.Some? && client.chain.value.stage == AwaitingTokens
    requires Present(Lookup(tokens, "accessToken"))
    modifies client, client.store
    ensures client.fetches == old(client.fetches) + replays
    ensures RefreshCount(client.fetches) == RefreshCount(old(client.fetches))
    ensures |replays| == |old(client.queue)| + 1
    ensures AllBearer(replays, ToText(Lookup(tokens, "accessToken").value))
  {
    ghost var q := client.queue;
    ghost var before := client.fetches;
    var lead := client.chain.value.leader;
    var reply := RefreshReceived(Some(Obj(tokens)));
    var t := RefreshTokens(reply);
    var settled, leader := client.OnRefreshReply(reply);
    ReplaysBearer(lead, q, t.value.0);
    ReplayLogCount(before, lead, t.value.0, settled);
    replays := [Replay(lead, t.value.0)] + Replays(settled);
  }

  /** Any number `n` of calls answered 401 while no refresh runs cost
      exactly one refresh request; when it returns tokens, exactly `n`
      requests follow, each a call replayed with the new bearer token. */
  method UnauthorizedBurst(n: nat, access: string, refresh: string, r401: Response, tokens: seq<(string, Json)>)
    returns (refreshRequests: nat, replays: seq<Fetch>)
    requires n > 0 && r401.status == 401 && refresh != ""
    requires Present(Lookup(tokens, "accessToken"))
    ensures refreshRequests == 1 && |replays| == n
    ensures AllBearer(replays, ToText(Lookup(tokens, "accessToken").value))
  {
    var store := new TokenStore(Some(access), Some(refresh));
    var client := new Client(store);
    StartingCall(client, "/accounts/account", r401);
    var k := 1;
    while k < n
      invariant 1 <= k <= n
      invariant client.Valid() && client.refreshing
      invariant client.chain.Some? && client.chain.value.stage == AwaitingTokens
      invariant |client.queue| == k - 1 && RefreshCount(client.fetches) == 1
    {
      WaitingCall(client, "/accounts/account", r401);
      k := k + 1;
    }
    replays := RefreshAnswered(client, tokens);
    refreshRequests := RefreshCount(client.fetches);
  }
}
