/** The single-flight token refresh of one browser tab
    (apps/web/src/lib/api-client.ts) against the rotating refresh tokens of
    the server (apps/api/src/auth/auth.service.ts). Tokens are numbers and
    every issued one is new; so are requests. */
module TokenRefresh {
  import opened Wrappers
  import opened Sequences

  // ---------------------------------------------------------------------
  // The tab: two module variables and the refresh cookie

  datatype Tab = Tab(isRefreshing: bool, queue: seq<nat>, cookie: Option<nat>)

  /** What the interceptor does with a failed request. */
  datatype Reaction = Rejected | Queued | Posts(token: nat)

  function React(tab: Tab, request: nat, retried: bool): (Tab, Reaction) {
    if retried then (tab, Rejected)
    else if tab.cookie.None? then (tab, Rejected)
    else if tab.isRefreshing then (tab.(queue := tab.queue + [request]), Queued)
    else (tab.(isRefreshing := true), Posts(tab.cookie.value))
  }

  function Granted(token: nat): Tab {
    Tab(false, [], Some(token))
  }

  /** The queue is not flushed when a refresh fails. */
  function Denied(tab: Tab): Tab {
    tab.(isRefreshing := false, cookie := None)
  }

  /** The configuration object of a request, which travels with it. */
  class Request {
    const id: nat
    var retry: bool

    constructor (id: nat)
      ensures this.id == id && !retry
    {
      this.id := id;
      retry := false;
    }
  }

  class Interceptor {
    var isRefreshing: bool
    var refreshQueue: seq<nat>
    var cookie: Option<nat>

    ghost function State(): Tab
      reads this
    {
      Tab(isRefreshing, refreshQueue, cookie)
    }

    constructor ()
      ensures State() == Tab(false, [], None)
    {
      isRefreshing, refreshQueue, cookie := false, [], None;
    }

    /** A 401 response. Only the request that posts is marked as retried. */
    method OnUnauthorized(original: Request) returns (reaction: Reaction)
      modifies this, original
      ensures (State(), reaction) == React(old(State()), original.id, old(original.retry))
      ensures original.retry == (old(original.retry) || reaction.Posts?)
    {
      if original.retry { return Rejected; }
      if cookie.None? {
        cookie := None;
        return Rejected;
      }
      if isRefreshing {
        refreshQueue := refreshQueue + [original.id];
        return Queued;
      }
      original.retry := true;
      isRefreshing := true;
      reaction := Posts(cookie.value);
    }

    /** The refresh succeeded: every queued request is resumed, in order. */
    method OnGranted(token: nat) returns (resumed: seq<nat>)
      modifies this
      ensures State() == Granted(token)
      ensures resumed == old(refreshQueue)
    {
      cookie := Some(token);
      resumed := [];
      for i := 0 to |refreshQueue|
        invariant resumed == refreshQueue[..i] && refreshQueue == old(refreshQueue) && cookie == Some(token)
      {
        resumed := resumed + [refreshQueue[i]];
      }
      refreshQueue := [];
      isRefreshing := false;
    }

    method OnDenied()
      modifies this
      ensures State() == Denied(old(State()))
    {
      cookie := None;
      isRefreshing := false;
    }
  }

  // ---------------------------------------------------------------------
  // The server: one row per issued refresh token

  /** chain is the token the rotation chain started from. */
  datatype Row = Row(revoked: bool, chain: nat, expiresAt: nat)

  datatype Server = Server(rows: map<nat, Row>, next: nat)

  /** Thirty days in milliseconds. */
  const LIFETIME: nat := 30 * 24 * 60 * 60 * 1000

  function Issue(server: Server, chain: nat, now: nat): Server {
    Server(server.rows[server.next := Row(false, chain, now + LIFETIME)], server.next + 1)
  }

  predicate Accepts(server: Server, token: nat, now: nat) {
    token in server.rows && !server.rows[token].revoked && server.rows[token].expiresAt >= now
  }

  function Revoke(server: Server, token: nat): Server
    requires token in server.rows
  {
    server.(rows := server.rows[token := server.rows[token].(revoked := true)])
  }

  /** Rotation: revoke the presented token, issue its successor. */
  function Rotate(server: Server, token: nat, now: nat): (Server, Option<nat>) {
    if !Accepts(server, token, now) then (server, None)
    else (Issue(Revoke(server, token), server.rows[token].chain, now), Some(server.next))
  }

  /** A token that is accepted is good for one refresh: its successor lasts
      thirty days, and every other token is as good as before. */
  lemma RotationOutcome(server: Server, token: nat, now: nat, other: nat, later: nat)
    requires server.next !in server.rows && other !in {token, server.next}
    ensures var (after, successor) := Rotate(server, token, now);
            if Accepts(server, token, now) then
              && successor == Some(server.next)
              && (Accepts(after, server.next, later) <==> later <= now + 2_592_000_000)
              && !Accepts(after, token, later)
              && (Accepts(after, other, later) <==> Accepts(server, other, later))
            else after == server && successor == None
  {
  }

  class AuthServer {
    var rows: map<nat, Row>
    var next: nat

    ghost function State(): Server
      reads this
    {
      Server(rows, next)
    }

    method IssueTokens(chain: nat, now: nat) returns (token: nat)
      modifies this
      ensures State() == Issue(old(State()), chain, now) && token == old(next)
    {
      token := next;
      rows := rows[token := Row(false, chain, now + LIFETIME)];
      next := next + 1;
    }

    method Refresh(token: nat, now: nat) returns (successor: Option<nat>)
      modifies this
      ensures (State(), successor) == Rotate(old(State()), token, now)
    {
      if token !in rows || rows[token].revoked || rows[token].expiresAt < now { return None; }
      var chain := rows[token].chain;
      rows := rows[token := rows[token].(revoked := true)];
      var issued := IssueTokens(chain, now);
      successor := Some(issued);
    }
  }

  // ---------------------------------------------------------------------
  // The protocol

  datatype Where = InFlight | Waiting | Leading | Settled

  /** A request by its number: where it is, and its own retry flag. */
  datatype Sent = Sent(at: Where, retry: bool)

  /** A posted refresh, the request that posted it and, once the server has
      handled it, its answer. */
  datatype Flight = Flight(token: nat, leader: nat, answer: Option<Option<nat>>)

  /** posted, posters, enqueued and resumed record the whole history. */
  datatype World = World(
    tab: Tab, server: Server, flights: seq<Flight>, requests: seq<Sent>, clock: nat,
    posted: seq<nat>, posters: seq<nat>, enqueued: seq<nat>, resumed: seq<nat>)

  datatype Event =
    | Login
    | Send
    | Succeeds(request: nat)
    | Unauthorized(request: nat)
    | ServerHandles(flight: nat)
    | AnswerArrives(flight: nat)
    | PostFails(flight: nat)
    | Tick(to: nat)

  const START := World(Tab(false, [], None), Server(map[], 0), [], [], 0, [], [], [], [])

  predicate Enabled(w: World, e: Event) {
    match e
    case Login => w.tab.cookie.None?
    case Send => true
    case Succeeds(r) => r < |w.requests| && w.requests[r].at == InFlight
    case Unauthorized(r) => r < |w.requests| && w.requests[r].at == InFlight
    case ServerHandles(f) => f < |w.flights| && w.flights[f].answer.None?
    case AnswerArrives(f) => f < |w.flights| && w.flights[f].answer.Some? && w.flights[f].leader < |w.requests|
    case PostFails(f) => f < |w.flights| && w.flights[f].leader < |w.requests|
    case Tick(to) => w.clock <= to
  }

  function Moved(requests: seq<Sent>, r: nat, at: Where): seq<Sent>
    requires r < |requests|
  {
    requests[r := requests[r].(at := at)]
  }

  /** All queued requests are sent again. */
  function Resent(requests: seq<Sent>, queue: seq<nat>): seq<Sent> {
    seq(|requests|, r requires 0 <= r < |requests| => if r in queue then requests[r].(at := InFlight) else requests[r])
  }

  function Land(w: World, f: nat): seq<Flight>
    requires f < |w.flights|
  {
    w.flights[..f] + w.flights[f + 1..]
  }

  function On401(w: World, r: nat): World
    requires r < |w.requests|
  {
    var (tab, reaction) := React(w.tab, r, w.requests[r].retry);
    match reaction
    case Rejected => w.(tab := tab, requests := Moved(w.requests, r, Settled))
    case Queued => w.(tab := tab, requests := Moved(w.requests, r, Waiting), enqueued := w.enqueued + [r])
    case Posts(token) =>
      w.(tab := tab, requests := w.requests[r := Sent(Leading, true)], flights := w.flights + [Flight(token, r, None)],
         posted := w.posted + [token], posters := w.posters + [r])
  }

  function OnAnswer(w: World, f: nat, token: nat): World
    requires f < |w.flights| && w.flights[f].leader < |w.requests|
  {
    w.(tab := Granted(token), flights := Land(w, f), resumed := w.resumed + w.tab.queue,
       requests := Moved(Resent(w.requests, w.tab.queue), w.flights[f].leader, InFlight))
  }

  function OnFailure(w: World, f: nat): World
    requires f < |w.flights| && w.flights[f].leader < |w.requests|
  {
    w.(tab := Denied(w.tab), flights := Land(w, f), requests := Moved(w.requests, w.flights[f].leader, Settled))
  }

  function Next(w: World, e: Event): World
    requires Enabled(w, e)
  {
    match e
    case Login =>
      w.(server := Issue(w.server, w.server.next, w.clock), tab := w.tab.(cookie := Some(w.server.next)))
    case Send => w.(requests := w.requests + [Sent(InFlight, false)])
    case Succeeds(r) => w.(requests := Moved(w.requests, r, Settled))
    case Unauthorized(r) => On401(w, r)
    case ServerHandles(f) =>
      var (server, successor) := Rotate(w.server, w.flights[f].token, w.clock);
      w.(server := server, flights := w.flights[f := w.flights[f].(answer := Some(successor))])
    case AnswerArrives(f) =>
      (match w.flights[f].answer.value case Some(token) => OnAnswer(w, f, token) case None => OnFailure(w, f))
    case PostFails(f) => OnFailure(w, f)
    case Tick(to) => w.(clock := to)
  }

  ghost predicate Run(trace: seq<World>, events: seq<Event>) {
    && |trace| == |events| + 1 && trace[0] == START
    && forall i {:trigger events[i]} ::
         0 <= i < |events| ==> Enabled(trace[i], events[i]) && trace[i + 1] == Next(trace[i], events[i])
  }

  // ---------------------------------------------------------------------
  // The invariant

  /** The only token of its chain that is not revoked. */
  ghost predicate OnlyUnrevoked(server: Server, token: nat) {
    && token in server.rows && !server.rows[token].revoked
    && forall t :: t in server.rows && server.rows[t].chain == server.rows[token].chain && t != token ==>
      server.rows[t].revoked
  }

  /** The token that the tab will hold next: its cookie, or the answer that
      is on its way. */
  ghost predicate Current(tab: Tab, server: Server, flights: seq<Flight>, posted: seq<nat>) {
    if flights == [] then
      tab.cookie.Some? ==> OnlyUnrevoked(server, tab.cookie.value) && tab.cookie.value !in posted
    else
      var flight := flights[0];
      && tab.cookie == Some(flight.token) && posted != [] && posted[|posted| - 1] == flight.token
      && match flight.answer
         case Some(Some(t)) => OnlyUnrevoked(server, t) && t !in posted
         case _ => OnlyUnrevoked(server, flight.token)
  }

  ghost predicate ServerInv(server: Server) {
    forall t :: t in server.rows ==> t < server.next && server.rows[t].chain < server.next
  }

  /** Tokens: one refresh in flight, and none posted twice. */
  ghost predicate TokenInv(w: World) {
    && |w.flights| <= 1 && (w.tab.isRefreshing <==> |w.flights| == 1)
    && Distinct(w.posted) && (forall t :: t in w.posted ==> t in w.server.rows)
    && ServerInv(w.server) && Current(w.tab, w.server, w.flights, w.posted)
  }

  /** Requests: where each is agrees with queue and flight, and exactly those
      that have posted are marked. */
  ghost predicate RequestInv(requests: seq<Sent>, queue: seq<nat>, flights: seq<Flight>, posters: seq<nat>) {
    && (forall r :: 0 <= r < |requests| ==> (requests[r].at == Waiting <==> r in queue))
    && (forall r :: r in queue ==> r < |requests| && !requests[r].retry)
    && Distinct(queue) && Distinct(posters)
    && (forall r :: r in posters ==> r < |requests|)
    && (forall r :: 0 <= r < |requests| ==> (requests[r].retry <==> r in posters))
    && (forall f :: 0 <= f < |flights| ==>
        flights[f].leader < |requests| && requests[flights[f].leader] == Sent(Leading, true))
  }

  ghost predicate Inv(w: World) {
    TokenInv(w) && RequestInv(w.requests, w.tab.queue, w.flights, w.posters) && w.enqueued == w.resumed + w.tab.queue
  }

  lemma UnauthorizedKeepsTokens(w: World, r: nat)
    requires Inv(w) && Enabled(w, Unauthorized(r))
    ensures TokenInv(Next(w, Unauthorized(r)))
  {
  }

  lemma UnauthorizedKeepsRequests(w: World, r: nat)
    requires Inv(w) && Enabled(w, Unauthorized(r))
    ensures var d := Next(w, Unauthorized(r)); RequestInv(d.requests, d.tab.queue, d.flights, d.posters)
    ensures var d := Next(w, Unauthorized(r)); d.enqueued == d.resumed + d.tab.queue
  {
    if React(w.tab, r, w.requests[r].retry).1.Queued? {
      assert w.resumed + (w.tab.queue + [r]) == (w.resumed + w.tab.queue) + [r];
    }
  }

  lemma ServerHandlesKeepsInv(w: World, f: nat)
    requires Inv(w) && Enabled(w, ServerHandles(f))
    ensures Inv(Next(w, ServerHandles(f)))
  {
  }

  lemma AnswerKeepsInv(w: World, f: nat, token: nat)
    requires Inv(w) && f < |w.flights| && w.flights[f].answer == Some(Some(token))
    ensures Inv(OnAnswer(w, f, token))
  {
    assert Land(w, f) == [];
    assert (w.resumed + w.tab.queue) + [] == w.resumed + w.tab.queue;
  }

  lemma FailureKeepsInv(w: World, f: nat)
    requires Inv(w) && f < |w.flights|
    ensures Inv(OnFailure(w, f))
  {
    assert Land(w, f) == [];
  }

  lemma StepKeepsInv(w: World, e: Event)
    requires Inv(w) && Enabled(w, e)
    ensures Inv(Next(w, e))
  {
    match e
    case Unauthorized(r) =>
      UnauthorizedKeepsTokens(w, r);
      UnauthorizedKeepsRequests(w, r);
    case ServerHandles(f) => ServerHandlesKeepsInv(w, f);
    case AnswerArrives(f) =>
      if w.flights[f].answer.value.Some? { AnswerKeepsInv(w, f, w.flights[f].answer.value.value); }
      else { FailureKeepsInv(w, f); }
    case PostFails(f) => FailureKeepsInv(w, f);
    case _ =>
  }

  lemma {:induction false} RunKeepsInv(trace: seq<World>, events: seq<Event>, i: nat)
    requires Run(trace, events) && i < |trace|
    ensures Inv(trace[i])
  {
    if i > 0 {
      RunKeepsInv(trace, events, i - 1);
      StepKeepsInv(trace[i - 1], events[i - 1]);
    }
  }

  /** In whatever order 401 responses, server replies and failures come in:
      at most one refresh is in flight, no token is ever posted twice, no
      request posts twice, every queue entry is resumed at most once and in
      its turn, and with nothing in flight the cookie is the only unrevoked
      token of its chain. */
  lemma SingleFlight(trace: seq<World>, events: seq<Event>, i: nat)
    requires Run(trace, events) && i < |trace|
    ensures var w := trace[i];
            && |w.flights| <= 1
            && Distinct(w.posted) && Distinct(w.posters)
            && w.enqueued == w.resumed + w.tab.queue && Distinct(w.tab.queue)
            && (w.flights == [] && w.tab.cookie.Some? ==> OnlyUnrevoked(w.server, w.tab.cookie.value))
  {
    RunKeepsInv(trace, events, i);
  }

  /** The server refuses this tab's refresh exactly when the token is past its
      thirty days; it is never refused as revoked. */
  lemma RefusedIffExpired(trace: seq<World>, events: seq<Event>, i: nat, f: nat)
    requires Run(trace, events) && i < |trace| && Enabled(trace[i], ServerHandles(f))
    ensures var w := trace[i];
            && w.flights[f].token in w.server.rows && !w.server.rows[w.flights[f].token].revoked
            && (Rotate(w.server, w.flights[f].token, w.clock).1.None?
                <==> w.server.rows[w.flights[f].token].expiresAt < w.clock)
  {
    RunKeepsInv(trace, events, i);
  }

  // ---------------------------------------------------------------------
  // A resumed request is not marked, so it may be queued again.

  /** A request that was resumed once runs into the next refresh. */
  predicate Requeues(w: World, e: Event) {
    && e.Unauthorized? && e.request in w.resumed
    && e.request < |w.requests| && !w.requests[e.request].retry && w.tab.cookie.Some? && w.tab.isRefreshing
  }

  lemma DistinctSnoc(s: seq<nat>, x: nat)
    ensures Distinct(s + [x]) <==> Distinct(s) && x !in s
  {
    var t := s + [x];
    assert forall i :: 0 <= i < |s| ==> t[i] == s[i];
    assert t[|s|] == x;
    if Distinct(t) {
      assert forall i, j :: 0 <= i < j < |s| ==> s[i] == t[i] && s[j] == t[j];
    }
  }

  lemma RequeueStep(w: World, e: Event)
    requires Inv(w) && Enabled(w, e)
    ensures Distinct(Next(w, e).enqueued) <==> Distinct(w.enqueued) && !Requeues(w, e)
  {
    if e.Unauthorized? && React(w.tab, e.request, w.requests[e.request].retry).1.Queued? {
      DistinctSnoc(w.enqueued, e.request);
      assert e.request in w.enqueued <==> e.request in w.resumed || e.request in w.tab.queue;
    }
  }

  /** Each request is queued, and so resumed, at most once exactly when no
      resumed request meets another refresh in flight. */
  lemma {:induction false} QueuedOnceIff(trace: seq<World>, events: seq<Event>, i: nat)
    requires Run(trace, events) && i < |trace|
    ensures Distinct(trace[i].enqueued) <==> forall k :: 0 <= k < i ==> !Requeues(trace[k], events[k])
  {
    if i > 0 {
      QueuedOnceIff(trace, events, i - 1);
      RunKeepsInv(trace, events, i - 1);
      RequeueStep(trace[i - 1], events[i - 1]);
    }
  }

  lemma Extended(trace: seq<World>, events: seq<Event>, e: Event) returns (longer: seq<World>, more: seq<Event>)
    requires Run(trace, events) && Enabled(trace[|events|], e)
    ensures Run(longer, more) && longer[|more|] == Next(trace[|events|], e) && more == events + [e]
  {
    longer, more := trace + [Next(trace[|events|], e)], events + [e];
    forall i {:trigger more[i]} | 0 <= i < |more|
      ensures Enabled(longer[i], more[i]) && longer[i + 1] == Next(longer[i], more[i]) {
      if i < |events| { assert more[i] == events[i] && longer[i] == trace[i] && longer[i + 1] == trace[i + 1]; }
    }
  }

  /** Request 1 is queued behind the refresh of request 0, resumed, and after
      the next 401 queued behind the refresh of request 2. */
  lemma ResumedTwice() returns (trace: seq<World>, events: seq<Event>)
    ensures Run(trace, events) && trace[|events|].resumed == [1, 1]
  {
    trace, events := [START], [];
    trace, events := Extended(trace, events, Login);
    trace, events := Extended(trace, events, Send);
    trace, events := Extended(trace, events, Send);
    trace, events := Extended(trace, events, Send);
    trace, events := RefreshWith(trace, events, 0);
    trace, events := RefreshWith(trace, events, 2);
  }

  /** Nothing is under way; requests 1 and leader are sent and unmarked. */
  ghost predicate Idle(w: World, leader: nat) {
    && w.flights == [] && w.tab.queue == [] && w.tab.cookie.Some? && Accepts(w.server, w.tab.cookie.value, w.clock)
    && |w.requests| == 3 && leader < 3 && leader != 1
    && w.requests[leader] == Sent(InFlight, false) && w.requests[1] == Sent(InFlight, false)
  }

  /** leader and then request 1 receive a 401. */
  lemma BothUnauthorized(trace: seq<World>, events: seq<Event>, leader: nat)
    returns (longer: seq<World>, more: seq<Event>)
    requires Run(trace, events) && Idle(trace[|events|], leader)
    ensures Run(longer, more)
    ensures var w, d := trace[|events|], longer[|more|];
            && d.flights == [Flight(w.tab.cookie.value, leader, None)] && d.tab == Tab(true, [1], w.tab.cookie)
            && d.server == w.server && d.clock == w.clock && d.resumed == w.resumed
            && d.requests == w.requests[leader := Sent(Leading, true)][1 := Sent(Waiting, false)]
  {
    RunKeepsInv(trace, events, |events|);
    longer, more := Extended(trace, events, Unauthorized(leader));
    longer, more := Extended(longer, more, Unauthorized(1));
  }

  /** And the refresh is granted. */
  lemma RefreshWith(trace: seq<World>, events: seq<Event>, leader: nat) returns (longer: seq<World>, more: seq<Event>)
    requires Run(trace, events) && Idle(trace[|events|], leader)
    ensures Run(longer, more)
    ensures var w, d := trace[|events|], longer[|more|];
            && d.flights == [] && d.tab.queue == [] && d.tab.cookie.Some?
            && Accepts(d.server, d.tab.cookie.value, d.clock)
            && |d.requests| == 3 && d.resumed == w.resumed + [1] && d.requests[1] == Sent(InFlight, false)
            && forall r :: 0 <= r < 3 && r != leader ==> d.requests[r] == w.requests[r]
  {
    longer, more := BothUnauthorized(trace, events, leader);
    longer, more := Extended(longer, more, ServerHandles(0));
    longer, more := Extended(longer, more, AnswerArrives(0));
  }
}
