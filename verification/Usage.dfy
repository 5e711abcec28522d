/** The monthly usage row of a tenant and its three independent writers: the
    usage meter (usage-meter.service.ts), the AI worker
    (eval-process.worker.ts) and the login (auth.service.ts), with the plan
    limit that uploads and ingests check (conversations.service.ts,
    webhooks.service.ts). */
module Usage {
  import opened Wrappers

  datatype Metric = Metric(conversations: nat, tokens: nat, cents: nat, activeUsers: nat)

  const NOTHING := Metric(0, 0, 0, 0)

  /** A moment, by the month it falls in. */
  datatype Moment = Moment(month: nat, offset: nat)

  predicate NotAfter(a: Moment, b: Moment) {
    a.month < b.month || (a.month == b.month && a.offset <= b.offset)
  }

  datatype Plan = Basic | Pro | Enterprise

  const UNLIMITED := 999_999

  function ConversationsPerMonth(plan: Plan): nat {
    match plan case Basic => 500 case Pro => 5000 case Enterprise => UNLIMITED
  }

  datatype Error = EmptyPayload | BatchTooLarge | PlanLimitExceeded | PlanLimitWouldExceed

  /** What an accepted write does, and when. */
  datatype Event =
    | Conversations(at: Moment, count: nat)
    | AiUsage(at: Moment, usedTokens: nat, costCents: nat)
    | LoggedIn(at: Moment, user: string)

  /** The source of a batch: an upload checks its size, an ingest does not. */
  datatype Source = Upload | Ingest

  // ---------------------------------------------------------------------
  // What the history says the row should hold

  function Sum(history: seq<Event>, amount: Event -> nat): nat {
    if history == [] then 0 else Sum(history[..|history| - 1], amount) + amount(history[|history| - 1])
  }

  function ConversationsIn(month: nat): Event -> nat {
    (e: Event) => if e.Conversations? && e.at.month == month then e.count else 0
  }

  function TokensIn(month: nat): Event -> nat {
    (e: Event) => if e.AiUsage? && e.at.month == month then e.usedTokens else 0
  }

  function CentsIn(month: nat): Event -> nat {
    (e: Event) => if e.AiUsage? && e.at.month == month then e.costCents else 0
  }

  /** The users who logged in during the month. */
  function Visitors(history: seq<Event>, month: nat): set<string> {
    set e | e in history && e.LoggedIn? && e.at.month == month :: e.user
  }

  /** Sums of all recorded amounts, and the number of distinct visitors. */
  function Expected(history: seq<Event>, month: nat): Metric {
    Metric(Sum(history, ConversationsIn(month)), Sum(history, TokensIn(month)), Sum(history, CentsIn(month)),
           |Visitors(history, month)|)
  }

  /** What one event adds to its own month. */
  function Plus(m: Metric, history: seq<Event>, e: Event): Metric {
    match e
    case Conversations(_, n) => m.(conversations := m.conversations + n)
    case AiUsage(_, t, c) => m.(tokens := m.tokens + t, cents := m.cents + c)
    case LoggedIn(at, u) => if u in Visitors(history, at.month) then m else m.(activeUsers := m.activeUsers + 1)
  }

  /** One more event changes the expected row of its own month only. */
  lemma ExpectedSnoc(history: seq<Event>, e: Event, month: nat)
    ensures Expected(history + [e], month)
         == if month == e.at.month then Plus(Expected(history, month), history, e) else Expected(history, month)
    ensures Visitors(history + [e], month)
         == Visitors(history, month) + if e.LoggedIn? && e.at.month == month then {e.user} else {}
    ensures var row, next := Expected(history, month), Expected(history + [e], month);
            if month != e.at.month then next == row
            else match e
                 case Conversations(_, n) => next == row.(conversations := row.conversations + n)
                 case AiUsage(_, t, c) => next == row.(tokens := row.tokens + t, cents := row.cents + c)
                 case LoggedIn(_, user) =>
                   next == row.(activeUsers := if exists f :: f in history && f.LoggedIn? && f.user == user
                                                            && f.at.month == month
                                               then row.activeUsers else row.activeUsers + 1)
  {
    SumSnoc(history, e, ConversationsIn(month));
    SumSnoc(history, e, TokensIn(month));
    SumSnoc(history, e, CentsIn(month));
    VisitorsSnoc(history, e, month);
  }

  lemma SumSnoc(history: seq<Event>, e: Event, amount: Event -> nat)
    ensures Sum(history + [e], amount) == Sum(history, amount) + amount(e)
  {
    assert (history + [e])[..|history|] == history;
  }

  lemma VisitorsSnoc(history: seq<Event>, e: Event, month: nat)
    ensures Visitors(history + [e], month)
         == Visitors(history, month) + if e.LoggedIn? && e.at.month == month then {e.user} else {}
    ensures |Visitors(history + [e], month)|
         == |Visitors(history, month)|
            + if e.LoggedIn? && e.at.month == month && e.user !in Visitors(history, month) then 1 else 0
  {
    assert forall x :: x in history + [e] <==> x in history || x == e;
    if e.LoggedIn? && e.user in Visitors(history, month) {
      assert Visitors(history, month) + {e.user} == Visitors(history, month);
    }
  }

  // ---------------------------------------------------------------------
  // Invariants

  function RowOf(metrics: map<nat, Metric>, month: nat): Metric {
    if month in metrics then metrics[month] else NOTHING
  }

  ghost predicate RowsExact(metrics: map<nat, Metric>, history: seq<Event>) {
    forall m :: RowOf(metrics, m) == Expected(history, m)
  }

  /** lastLogin remembers each user's latest login, so it decides whether a
      login is the first of the current month. */
  ghost predicate LoginsKnown(lastLogin: map<string, Moment>, history: seq<Event>, now: Moment) {
    && (forall u :: u in lastLogin ==> NotAfter(lastLogin[u], now))
    && (forall u :: u in Visitors(history, now.month) <==> u in lastLogin && lastLogin[u].month == now.month)
    && (forall m, u :: m > now.month ==> u !in Visitors(history, m))
  }

  ghost predicate WithinPlan(plan: Plan, history: seq<Event>) {
    plan != Enterprise ==> forall m :: Sum(history, ConversationsIn(m)) <= ConversationsPerMonth(plan)
  }

  /** An upsert that adds the event to its month's row. */
  lemma RowsStep(metrics: map<nat, Metric>, history: seq<Event>, e: Event, row: Metric)
    requires RowsExact(metrics, history) && row == Plus(RowOf(metrics, e.at.month), history, e)
    ensures RowsExact(metrics[e.at.month := row], history + [e])
    ensures row == RowOf(metrics, e.at.month) ==> RowsExact(metrics, history + [e])
  {
    forall m ensures Expected(history + [e], m) == if m == e.at.month then row else RowOf(metrics, m) {
      ExpectedSnoc(history, e, m);
      assert RowOf(metrics, m) == Expected(history, m);
    }
  }

  lemma LoginsStep(lastLogin: map<string, Moment>, history: seq<Event>, e: Event, now: Moment)
    requires LoginsKnown(lastLogin, history, now) && e.at == now
    ensures LoginsKnown(if e.LoggedIn? then lastLogin[e.user := now] else lastLogin, history + [e], now)
  {
    forall m: nat
      ensures Visitors(history + [e], m)
           == Visitors(history, m) + if e.LoggedIn? && e.at.month == m then {e.user} else {}
    {
      ExpectedSnoc(history, e, m);
    }
  }

  lemma PlanStep(plan: Plan, history: seq<Event>, e: Event)
    requires WithinPlan(plan, history)
    requires e.Conversations? && plan != Enterprise ==>
      Sum(history, ConversationsIn(e.at.month)) + e.count <= ConversationsPerMonth(plan)
    ensures WithinPlan(plan, history + [e])
  {
    assert (history + [e])[..|history|] == history;
  }

  // ---------------------------------------------------------------------
  // The service

  class UsageTable {
    const plan: Plan
    /** One row per month, created by whichever writer comes first. */
    var metrics: map<nat, Metric>
    var lastLogin: map<string, Moment>
    var now: Moment
    ghost var history: seq<Event>

    ghost predicate Valid()
      reads this
    {
      RowsExact(metrics, history) && LoginsKnown(lastLogin, history, now) && WithinPlan(plan, history)
    }

    constructor (plan: Plan)
      ensures Valid() && this.plan == plan && history == []
    {
      this.plan := plan;
      metrics, lastLogin, now, history := map[], map[], Moment(0, 0), [];
    }

    /** The clock never goes back. */
    method Tick(to: Moment)
      requires Valid() && NotAfter(now, to)
      modifies this
      ensures Valid() && history == old(history) && now == to && metrics == old(metrics)
    {
      now := to;
    }

    method GetMonthlyConversationCount() returns (used: nat)
      requires Valid()
      ensures used == Sum(history, ConversationsIn(now.month))
    {
      assert RowOf(metrics, now.month) == Expected(history, now.month);
      used := if now.month in metrics then metrics[now.month].conversations else 0;
    }

    /** usageMeter.recordConversation */
    method RecordConversation(count: nat)
      requires Valid()
      requires plan != Enterprise ==> Sum(history, ConversationsIn(now.month)) + count <= ConversationsPerMonth(plan)
      modifies this
      ensures Valid() && history == old(history) + [Conversations(now, count)] && now == old(now)
    {
      ghost var e := Conversations(now, count);
      var row := if now.month in metrics
                 then metrics[now.month].(conversations := metrics[now.month].conversations + count)
                 else NOTHING.(conversations := count);
      RowsStep(metrics, history, e, row);
      LoginsStep(lastLogin, history, e, now);
      PlanStep(plan, history, e);
      metrics := metrics[now.month := row];
      history := history + [e];
    }

    /** A batch arrives. Nothing is recorded unless the whole batch fits. */
    method Process(source: Source, size: nat) returns (r: Option<Error>)
      requires Valid()
      modifies this
      ensures Valid() && now == old(now)
      ensures var used, limit := Sum(old(history), ConversationsIn(now.month)), ConversationsPerMonth(plan);
              r == if source == Upload && size == 0 then Some(EmptyPayload)
                   else if source == Upload && size > 500 then Some(BatchTooLarge)
                   else if plan != Enterprise && used >= limit then Some(PlanLimitExceeded)
                   else if plan != Enterprise && used + size > limit then Some(PlanLimitWouldExceed)
                   else None
      ensures history == if r.Some? then old(history) else old(history) + [Conversations(now, size)]
    {
      if source == Upload {
        if size == 0 { return Some(EmptyPayload); }
        if size > 500 { return Some(BatchTooLarge); }
      }
      var limit := ConversationsPerMonth(plan);
      if limit != UNLIMITED {
        var used := GetMonthlyConversationCount();
        var remaining := limit - used;
        if remaining <= 0 { return Some(PlanLimitExceeded); }
        if size > remaining { return Some(PlanLimitWouldExceed); }
      }
      RecordConversation(size);
      r := None;
    }

    /** usageMeter.recordAiUsage skips a call that used nothing; the worker's
        own upsert skips one without tokens. */
    method RecordAiUsage(tokens: nat, cents: nat, byWorker: bool)
      requires Valid()
      modifies this
      ensures Valid() && now == old(now)
      ensures history == if tokens == 0 && (byWorker || cents == 0) then old(history)
                         else old(history) + [AiUsage(now, tokens, cents)]
    {
      if tokens == 0 && (byWorker || cents == 0) { return; }
      ghost var e := AiUsage(now, tokens, cents);
      var row := if now.month in metrics
                 then metrics[now.month].(tokens := metrics[now.month].tokens + tokens,
                                          cents := metrics[now.month].cents + cents)
                 else Metric(0, tokens, cents, 0);
      RowsStep(metrics, history, e, row);
      LoginsStep(lastLogin, history, e, now);
      PlanStep(plan, history, e);
      metrics := metrics[now.month := row];
      history := history + [e];
    }

    /** The counter goes up only on the user's first login of the month. */
    method Login(user: string)
      requires Valid()
      modifies this
      ensures Valid() && history == old(history) + [LoggedIn(now, user)] && now == old(now)
      ensures lastLogin == old(lastLogin)[user := now]
    {
      ghost var e := LoggedIn(now, user);
      var first := user !in lastLogin || lastLogin[user].month < now.month;
      assert first <==> user !in Visitors(history, now.month);
      RowsStep(metrics, history, e, Plus(RowOf(metrics, now.month), history, e));
      LoginsStep(lastLogin, history, e, now);
      PlanStep(plan, history, e);
      lastLogin := lastLogin[user := now];
      if first {
        metrics := metrics[now.month :=
          if now.month in metrics then metrics[now.month].(activeUsers := metrics[now.month].activeUsers + 1)
          else NOTHING.(activeUsers := 1)];
      }
      history := history + [e];
    }

    /** On every plan with a limit no month ever exceeds it, and every row
        holds what was recorded. */
    lemma RowsAreExact(month: nat)
      requires Valid()
      ensures var row := RowOf(metrics, month);
              && row.conversations == Sum(history, ConversationsIn(month))
              && row.tokens == Sum(history, TokensIn(month))
              && row.cents == Sum(history, CentsIn(month))
              && row.activeUsers == |Visitors(history, month)|
              && (plan == Basic ==> row.conversations <= 500) && (plan == Pro ==> row.conversations <= 5_000)
    {
      assert RowOf(metrics, month) == Expected(history, month);
    }
  }
}
