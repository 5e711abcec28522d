/** The round-robin allocator of evaluations.service.ts and its fairness. */
module RoundRobin {
  import opened Wrappers
  import opened Sequences
  import opened Workflow

  type QueueTable = map<string, QueueRow>

  datatype Assignment = Assignment(evaluationId: string, userId: string)

  /** One row of the groupBy query: a user and how many rows they hold. */
  datatype Count = Count(userId: string, rows: nat)

  // ---------------------------------------------------------------------
  // Loads

  function HeldBy(queue: QueueTable, queueType: QueueType, user: string): set<string> {
    set id | id in queue && queue[id].queueType == queueType && queue[id].assignedTo == Some(user)
  }

  function Load(queue: QueueTable, queueType: QueueType, user: string): nat {
    |HeldBy(queue, queueType, user)|
  }

  /** What the database answers: each user holding rows of the queue, once. */
  ghost predicate CountsOf(counts: seq<Count>, queue: QueueTable, queueType: QueueType) {
    && (forall i, j :: 0 <= i < j < |counts| ==> counts[i].userId != counts[j].userId)
    && (forall i :: 0 <= i < |counts| ==> counts[i].rows == Load(queue, queueType, counts[i].userId) > 0)
    && (forall u :: Load(queue, queueType, u) > 0 ==> exists i :: 0 <= i < |counts| && counts[i].userId == u)
  }

  method LoadMap(users: seq<string>, counts: seq<Count>, ghost queue: QueueTable, queueType: QueueType)
    returns (loads: map<string, nat>)
    requires CountsOf(counts, queue, queueType)
    ensures loads.Keys == set u | u in users
    ensures forall u :: u in users ==> loads[u] == Load(queue, queueType, u)
  {
    loads := map[];
    for i := 0 to |users|
      invariant forall u :: u in loads <==> u in users[..i]
      invariant forall u :: u in loads ==> loads[u] == 0
    {
      loads := loads[users[i] := 0];
    }
    assert users[..|users|] == users;
    for i := 0 to |counts|
      invariant loads.Keys == set u | u in users
      invariant forall j :: 0 <= j < i && counts[j].userId in users ==> loads[counts[j].userId] == counts[j].rows
      invariant forall u :: u in users && (forall j :: 0 <= j < i ==> counts[j].userId != u) ==> loads[u] == 0
    {
      if counts[i].userId in loads {
        loads := loads[counts[i].userId := counts[i].rows];
      }
    }
  }

  function ByLoad(loads: map<string, nat>): string -> int {
    (u: string) => if u in loads then loads[u] else 0
  }

  // ---------------------------------------------------------------------
  // Assignment

  function Dealt(items: seq<string>, users: seq<string>): seq<Assignment>
    requires users != []
  {
    seq(|items|, i requires 0 <= i < |items| => Assignment(items[i], users[i % |users|]))
  }

  function WithLoad(queue: QueueTable, queueType: QueueType, load: int): string -> bool {
    (u: string) => Load(queue, queueType, u) == load
  }

  /** The users again, the least loaded first, and those with equal loads in
      the order they were listed in. */
  ghost predicate InTurn(users: seq<string>, sorted: seq<string>, queue: QueueTable, queueType: QueueType) {
    && |sorted| == |users| && multiset(sorted) == multiset(users)
    && (forall i, j :: 0 <= i < j < |sorted| ==> Load(queue, queueType, sorted[i]) <= Load(queue, queueType, sorted[j]))
    && (forall k :: FilterBy(WithLoad(queue, queueType, k), sorted) == FilterBy(WithLoad(queue, queueType, k), users))
  }

  /** Sorting stably by a map that holds the loads puts the users in turn. */
  lemma SortedInTurn(users: seq<string>, loads: map<string, nat>, queue: QueueTable, queueType: QueueType)
    requires forall u :: u in users ==> u in loads && loads[u] == Load(queue, queueType, u)
    ensures InTurn(users, StableSort(ByLoad(loads), users), queue, queueType)
  {
    var key := ByLoad(loads);
    var sorted := StableSort(key, users);
    StableSortPermutes(key, users);
    StableSortSorted(key, users);
    SameMembers(sorted, users);
    forall k ensures FilterBy(WithLoad(queue, queueType, k), sorted) == FilterBy(WithLoad(queue, queueType, k), users) {
      StableSortStable(key, users, k);
      FilterCongruent(HasKey(key, k), WithLoad(queue, queueType, k), sorted);
      FilterCongruent(HasKey(key, k), WithLoad(queue, queueType, k), users);
    }
  }

  /** Sorts the users by load and deals the items out in turn. */
  method Deal(users: seq<string>, items: seq<string>, counts: seq<Count>, ghost queue: QueueTable, queueType: QueueType)
    returns (sorted: seq<string>, assignments: seq<Assignment>)
    requires users != [] && CountsOf(counts, queue, queueType)
    ensures InTurn(users, sorted, queue, queueType)
    ensures assignments == Dealt(items, sorted)
  {
    var loads := LoadMap(users, counts, queue, queueType);
    sorted := StableSort(ByLoad(loads), users);
    SortedInTurn(users, loads, queue, queueType);
    assignments := [];
    for i := 0 to |items|
      invariant assignments == Dealt(items, sorted)[..i]
    {
      assignments := assignments + [Assignment(items[i], sorted[i % |sorted|])];
    }
  }

  /** The queue table after the batch update. */
  function Assign(queue: QueueTable, assignments: seq<Assignment>): QueueTable
    requires forall a :: a in assignments ==> a.evaluationId in queue
  {
    if assignments == [] then queue
    else
      var last := assignments[|assignments| - 1];
      Assign(queue, assignments[..|assignments| - 1])[last.evaluationId :=
                                                      queue[last.evaluationId].(assignedTo := Some(last.userId))]
  }

  function For(user: string): Assignment -> bool {
    (a: Assignment) => a.userId == user
  }

  // ---------------------------------------------------------------------
  // Fairness

  /** What place k of m gets of n items: floor(n/m), and one more when it is
      among the first n mod m places. */
  function Share(n: nat, m: nat, k: nat): nat
    requires m > 0
  {
    n / m + if k < n % m then 1 else 0
  }

  /** Item n goes to place n mod m. */
  lemma ShareGrows(n: nat, m: nat, k: nat)
    requires k < m
    ensures Share(n + 1, m, k) == Share(n, m, k) + if n % m == k then 1 else 0
  {
    var q, r := n / m, n % m;
    assert n == m * q + r;
    if r == m - 1 {
      DivModUnique(n + 1, m, q + 1, 0);
    } else {
      DivModUnique(n + 1, m, q, r + 1);
    }
  }

  lemma DivModUnique(n: nat, m: nat, q: nat, r: nat)
    requires m > 0 && n == m * q + r && r < m
    ensures n / m == q && n % m == r
  {
    var d := n / m - q;
    assert m * d == r - n % m;
    assert d >= 1 ==> m * d >= m;
    assert d <= -1 ==> m * d <= 0 - m;
  }

  lemma DealtSnoc(items: seq<string>, users: seq<string>)
    requires items != [] && users != []
    ensures var n := |items| - 1;
            Dealt(items, users) == Dealt(items[..n], users) + [Assignment(items[n], users[n % |users|])]
  {
  }

  lemma {:induction false} ShareOf(items: seq<string>, users: seq<string>, k: nat)
    requires Distinct(users) && k < |users|
    ensures |FilterBy(For(users[k]), Dealt(items, users))| == Share(|items|, |users|, k)
    decreases |items|
  {
    if items != [] {
      var n := |items| - 1;
      var last := Assignment(items[n], users[n % |users|]);
      ShareOf(items[..n], users, k);
      DealtSnoc(items, users);
      FilterSnoc(For(users[k]), Dealt(items[..n], users), last);
      assert For(users[k])(last) <==> n % |users| == k;
      ShareGrows(n, |users|, k);
    }
  }

  /** Rows that round-robin assignment selects: of the queue, unassigned. */
  ghost predicate Selected(items: seq<string>, queue: QueueTable, queueType: QueueType) {
    Distinct(items) && forall id :: id in items ==> id in queue && Unassigned(Some(queue[id]), queueType)
  }

  function Items(assignments: seq<Assignment>): seq<string> {
    seq(|assignments|, i requires 0 <= i < |assignments| => assignments[i].evaluationId)
  }

  lemma LastIsNew(assignments: seq<Assignment>)
    requires assignments != [] && Distinct(Items(assignments))
    ensures var front, last := assignments[..|assignments| - 1], assignments[|assignments| - 1];
            Distinct(Items(front)) && last.evaluationId !in Items(front)
            && forall id :: id in Items(assignments) <==> id in Items(front) || id == last.evaluationId
  {
    var front, last := assignments[..|assignments| - 1], assignments[|assignments| - 1];
    var all := Items(assignments);
    assert all == Items(front) + [last.evaluationId] && all[|front|] == last.evaluationId;
    assert forall i :: 0 <= i < |front| ==> Items(front)[i] == all[i] && all[i] != all[|front|];
  }

  lemma {:induction false} OtherRows(queue: QueueTable, assignments: seq<Assignment>)
    requires forall a :: a in assignments ==> a.evaluationId in queue
    ensures Assign(queue, assignments).Keys == queue.Keys
    ensures forall id :: id in queue && id !in Items(assignments) ==> Assign(queue, assignments)[id] == queue[id]
  {
    if assignments != [] {
      var n := |assignments| - 1;
      var front := assignments[..n];
      OtherRows(queue, front);
      assert Items(assignments) == Items(front) + [assignments[n].evaluationId];
    }
  }

  lemma {:induction false} DealtRow(queue: QueueTable, assignments: seq<Assignment>, i: nat)
    requires Distinct(Items(assignments)) && i < |assignments|
    requires forall a :: a in assignments ==> a.evaluationId in queue
    ensures assignments[i].evaluationId in Assign(queue, assignments)
    ensures Assign(queue, assignments)[assignments[i].evaluationId]
         == queue[assignments[i].evaluationId].(assignedTo := Some(assignments[i].userId))
  {
    var n := |assignments| - 1;
    if i < n {
      LastIsNew(assignments);
      DealtRow(queue, assignments[..n], i);
      assert Items(assignments[..n])[i] == assignments[i].evaluationId;
    }
  }

  /** Exactly the dealt rows change, each to its new owner. */
  lemma AssignRows(queue: QueueTable, assignments: seq<Assignment>)
    requires Distinct(Items(assignments))
    requires forall a :: a in assignments ==> a.evaluationId in queue
    ensures Assign(queue, assignments).Keys == queue.Keys
    ensures forall id :: id in queue && id !in Items(assignments) ==> Assign(queue, assignments)[id] == queue[id]
    ensures forall i :: 0 <= i < |assignments| ==>
      Assign(queue, assignments)[assignments[i].evaluationId]
        == queue[assignments[i].evaluationId].(assignedTo := Some(assignments[i].userId))
  {
    OtherRows(queue, assignments);
    forall i | 0 <= i < |assignments|
      ensures Assign(queue, assignments)[assignments[i].evaluationId]
           == queue[assignments[i].evaluationId].(assignedTo := Some(assignments[i].userId))
    {
      DealtRow(queue, assignments, i);
    }
  }

  /** The load in the table grows by exactly the items dealt to the user. */
  lemma {:induction false} LoadAfter(queue: QueueTable, queueType: QueueType, assignments: seq<Assignment>,
                                     user: string)
    requires Selected(Items(assignments), queue, queueType)
    requires forall a :: a in assignments ==> a.evaluationId in queue
    ensures Load(Assign(queue, assignments), queueType, user)
         == Load(queue, queueType, user) + |FilterBy(For(user), assignments)|
  {
    if assignments != [] {
      var front, last := assignments[..|assignments| - 1], assignments[|assignments| - 1];
      LastIsNew(assignments);
      LoadAfter(queue, queueType, front, user);
      AssignRows(queue, front);
      OneMore(Assign(queue, front), queueType, last.evaluationId, last.userId, user);
    }
  }

  lemma OneMore(queue: QueueTable, queueType: QueueType, id: string, assignee: string, user: string)
    requires id in queue && Unassigned(Some(queue[id]), queueType)
    ensures Load(queue[id := queue[id].(assignedTo := Some(assignee))], queueType, user)
         == Load(queue, queueType, user) + if assignee == user then 1 else 0
  {
    var after := queue[id := queue[id].(assignedTo := Some(assignee))];
    if assignee == user {
      assert HeldBy(after, queueType, user) == HeldBy(queue, queueType, user) + {id};
    } else {
      assert HeldBy(after, queueType, user) == HeldBy(queue, queueType, user);
    }
  }

  /** users is the eligible list, sorted by load; items the selected rows. */
  ghost predicate Round(queue: QueueTable, queueType: QueueType, users: seq<string>, items: seq<string>) {
    && users != [] && Distinct(users) && Selected(items, queue, queueType)
    && forall i, j :: 0 <= i < j < |users| ==> Load(queue, queueType, users[i]) <= Load(queue, queueType, users[j])
  }

  lemma {:induction false} DistinctOnce<T>(s: seq<T>, x: T)
    requires Distinct(s)
    ensures multiset(s)[x] <= 1
  {
    if s != [] {
      var n := |s| - 1;
      assert s == s[..n] + [s[n]];
      DistinctOnce(s[..n], x);
      assert s[n] !in multiset(s[..n]);
    }
  }

  lemma CountedTwice<T>(s: seq<T>, i: nat, j: nat)
    requires i < j < |s| && s[i] == s[j]
    ensures multiset(s)[s[i]] >= 2
  {
    assert s == s[..j] + [s[j]] + s[j + 1..];
    assert s[..j][i] in multiset(s[..j]);
  }

  /** What Deal sorts is what the fairness results are about. */
  lemma TurnsMakeRound(users: seq<string>, sorted: seq<string>, items: seq<string>, queue: QueueTable,
                       queueType: QueueType)
    requires users != [] && Distinct(users) && InTurn(users, sorted, queue, queueType)
             && Selected(items, queue, queueType)
    ensures Round(queue, queueType, sorted, items)
    ensures forall u :: u in sorted <==> u in users
  {
    SameMembers(sorted, users);
    forall i, j | 0 <= i < j < |sorted| ensures sorted[i] != sorted[j] {
      DistinctOnce(users, sorted[i]);
      if sorted[i] == sorted[j] { CountedTwice(sorted, i, j); }
    }
  }

  lemma ItemsOfDealt(items: seq<string>, users: seq<string>)
    requires users != []
    ensures Items(Dealt(items, users)) == items
    ensures forall a :: a in Dealt(items, users) ==> a.evaluationId in items && a.userId in users
  {
  }

  lemma LoadOfPlace(queue: QueueTable, queueType: QueueType, users: seq<string>, items: seq<string>, k: nat)
    requires Round(queue, queueType, users, items) && k < |users|
    ensures forall a :: a in Dealt(items, users) ==> a.evaluationId in queue
    ensures Load(Assign(queue, Dealt(items, users)), queueType, users[k])
         == Load(queue, queueType, users[k]) + |items| / |users| + if k < |items| % |users| then 1 else 0
  {
    ItemsOfDealt(items, users);
    LoadAfter(queue, queueType, Dealt(items, users), users[k]);
    ShareOf(items, users, k);
  }

  /** Every selected row is assigned exactly once and to an eligible user. */
  lemma EveryItemOnce(queue: QueueTable, queueType: QueueType, users: seq<string>, items: seq<string>)
    requires Round(queue, queueType, users, items)
    ensures Items(Dealt(items, users)) == items
    ensures forall a :: a in Dealt(items, users) ==> a.evaluationId in queue
    ensures var after := Assign(queue, Dealt(items, users));
            && after.Keys == queue.Keys
            && (forall id :: id in items ==> after[id].assignedTo.Some? && after[id].assignedTo.value in users)
            && (forall id :: id in queue && id !in items ==> after[id] == queue[id])
  {
    ItemsOfDealt(items, users);
    AssignRows(queue, Dealt(items, users));
    forall id | id in items
      ensures Assign(queue, Dealt(items, users))[id].assignedTo.Some?
              && Assign(queue, Dealt(items, users))[id].assignedTo.value in users
    {
      var i :| 0 <= i < |items| && items[i] == id;
      assert Dealt(items, users)[i].evaluationId == id;
    }
  }

  /** Shares differ by at most one, and never favour the more loaded. */
  lemma SharesAreFair(queue: QueueTable, queueType: QueueType, users: seq<string>, items: seq<string>, u: string,
                      v: string)
    requires Round(queue, queueType, users, items) && u in users && v in users
    ensures var dealt, n, m := Dealt(items, users), |items|, |users|;
            && |FilterBy(For(u), dealt)| in {n / m, n / m + 1}
            && (n % m == 0 ==> |FilterBy(For(u), dealt)| == n / m)
            && (Load(queue, queueType, u) < Load(queue, queueType, v) ==>
                |FilterBy(For(v), dealt)| <= |FilterBy(For(u), dealt)|)
  {
    var i :| 0 <= i < |users| && users[i] == u;
    var j :| 0 <= j < |users| && users[j] == v;
    ShareOf(items, users, i);
    ShareOf(items, users, j);
  }

  /** The spread of the loads afterwards is at most the larger of the spread
      before and one. */
  lemma SpreadDoesNotGrow(queue: QueueTable, queueType: QueueType, users: seq<string>, items: seq<string>, spread: int)
    requires Round(queue, queueType, users, items) && spread >= 1
    requires forall u, v :: u in users && v in users ==> Load(queue, queueType, u) - Load(queue, queueType, v) <= spread
    ensures forall a :: a in Dealt(items, users) ==> a.evaluationId in queue
    ensures var after := Assign(queue, Dealt(items, users));
            forall u, v :: u in users && v in users ==> Load(after, queueType, u) - Load(after, queueType, v) <= spread
  {
    EveryItemOnce(queue, queueType, users, items);
    var after := Assign(queue, Dealt(items, users));
    forall u, v | u in users && v in users ensures Load(after, queueType, u) - Load(after, queueType, v) <= spread {
      var i :| 0 <= i < |users| && users[i] == u;
      var j :| 0 <= j < |users| && users[j] == v;
      LoadOfPlace(queue, queueType, users, items, i);
      LoadOfPlace(queue, queueType, users, items, j);
    }
  }
}
