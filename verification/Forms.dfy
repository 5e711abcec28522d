/** Form versions under concurrent creation, and the one-published-form-per-
    channel rule (apps/api/src/forms/forms.service.ts), with the form lookups
    of upload, ingest and backfill that rely on it. */
module Forms {
  import opened Wrappers

  datatype Status = Draft | Published | Deprecated | Archived

  datatype Form = Form(key: string, version: int, status: Status, channels: seq<string>)

  /** Rows of form_definitions by id; next is an unused id. */
  type Table = map<nat, Form>

  datatype Error = ChannelRequired | FormNotFound | NotEditable | InvalidTransition | ChannelTaken | CreateConflict

  datatype StatusAction = Publish | Unpublish | Deprecate | Archive

  // ---------------------------------------------------------------------
  // Versions

  predicate HasVersion(t: Table, key: string, v: int) {
    exists id :: id in t && t[id].key == key && t[id].version == v
  }

  /** The versions of the key are exactly 1 to n. */
  ghost predicate Contiguous(t: Table, key: string, n: nat) {
    forall v :: HasVersion(t, key, v) <==> 1 <= v <= n
  }

  ghost predicate Numbered(t: Table, key: string) {
    exists n: nat :: Contiguous(t, key, n)
  }

  /** What findFirst ordered by version descending answers, 0 for none. */
  ghost predicate IsLatest(t: Table, key: string, v: int) {
    && (v != 0 ==> HasVersion(t, key, v))
    && (v == 0 ==> forall w :: !HasVersion(t, key, w))
    && forall w :: HasVersion(t, key, w) ==> w <= v
  }

  // ---------------------------------------------------------------------
  // Status changes

  predicate MayChange(status: Status, action: StatusAction) {
    match action
    case Publish => status == Draft
    case Unpublish => status == Published
    case Deprecate => status == Published
    case Archive => status in {Draft, Deprecated}
  }

  function Target(action: StatusAction): Status {
    match action
    case Publish => Published
    case Unpublish => Draft
    case Deprecate => Deprecated
    case Archive => Archived
  }

  predicate Overlapping(a: Form, b: Form) {
    exists ch :: ch in a.channels && ch in b.channels
  }

  predicate Conflicts(t: Table, id: nat)
    requires id in t
  {
    exists j :: j in t && j != id && t[j].status == Published && Overlapping(t[j], t[id])
  }

  function ChangeStatus(t: Table, id: nat, action: StatusAction): Result<Table, Error> {
    if id !in t then Failure(FormNotFound)
    else if !MayChange(t[id].status, action) then Failure(InvalidTransition)
    else if action == Publish && Conflicts(t, id) then Failure(ChannelTaken)
    else Success(t[id := t[id].(status := Target(action))])
  }

  ghost predicate ChannelsFree(t: Table, id: nat)
    requires id in t
  {
    forall j, ch :: j in t && j != id && t[j].status == Published && ch in t[j].channels ==> ch !in t[id].channels
  }

  /** Exactly these changes of status are made, and a form is published only
      while no other published form has one of its channels. */
  lemma ChangeOutcome(t: Table, id: nat, action: StatusAction)
    ensures var r := ChangeStatus(t, id, action);
            var from := if id in t then t[id].status else Archived;
            && (r.Success? <==>
                && id in t
                && (action, from) in {(Publish, Draft), (Unpublish, Published), (Deprecate, Published),
                                      (Archive, Draft), (Archive, Deprecated)}
                && (action == Publish ==> ChannelsFree(t, id)))
            && (r.Success? ==>
                && r.value.Keys == t.Keys && (forall j :: j in t && j != id ==> r.value[j] == t[j])
                && (action, r.value[id].status) in {(Publish, Published), (Unpublish, Draft), (Deprecate, Deprecated),
                                                    (Archive, Archived)}
                && r.value[id] == t[id].(status := r.value[id].status))
            && (r == Failure(FormNotFound) <==> id !in t)
            && (r == Failure(ChannelTaken) ==> action == Publish && from == Draft)
  {
  }

  /** channels is None when the update leaves them out. */
  function UpdateForm(t: Table, id: nat, channels: Option<seq<string>>): Result<Table, Error> {
    if id !in t then Failure(FormNotFound)
    else if t[id].status != Draft then Failure(NotEditable)
    else Success(t[id := t[id].(channels := channels.GetOr(t[id].channels))])
  }

  // ---------------------------------------------------------------------
  // Concurrent requests

  /** A createForm request between its steps: the version it has read, and
      how many inserts have failed on the unique index. */
  datatype Call = Call(key: string, channels: seq<string>, read: Option<int>, failed: nat,
                       outcome: Option<Result<int, Error>>)

  datatype State = State(table: Table, calls: map<nat, Call>)

  datatype Step =
    | Ask(call: nat, key: string, channels: seq<string>)
    | ReadLatest(call: nat, latest: int)
    | Insert(call: nat, id: nat)
    | Edit(id: nat, newChannels: Option<seq<string>>)
    | Change(id: nat, action: StatusAction)

  const EMPTY := State(map[], map[])

  ghost predicate Enabled(s: State, step: Step) {
    match step
    case Ask(c, _, _) => c !in s.calls
    case ReadLatest(c, latest) =>
      c in s.calls && s.calls[c].outcome.None? && s.calls[c].read.None? && IsLatest(s.table, s.calls[c].key, latest)
    case Insert(c, id) => c in s.calls && s.calls[c].outcome.None? && s.calls[c].read.Some? && id !in s.table
    case Edit(_, _) => true
    case Change(_, _) => true
  }

  function Or(t: Table, r: Result<Table, Error>): Table {
    if r.Success? then r.value else t
  }

  function InsertStep(s: State, c: nat, id: nat): State
    requires c in s.calls && s.calls[c].read.Some?
  {
    var call := s.calls[c];
    var version := call.read.value + 1;
    if !HasVersion(s.table, call.key, version) then
      State(s.table[id := Form(call.key, version, Draft, call.channels)],
            s.calls[c := call.(outcome := Some(Success(version)))])
    else if call.failed == 0 then
      s.(calls := s.calls[c := call.(read := None, failed := 1)])
    else
      s.(calls := s.calls[c := call.(outcome := Some(Failure(CreateConflict)))])
  }

  function Next(s: State, step: Step): State
    requires Enabled(s, step)
  {
    match step
    case Ask(c, key, channels) =>
      s.(calls := s.calls[c := Call(key, channels, None, 0, if channels == [] then Some(Failure(ChannelRequired))
                                    else None)])
    case ReadLatest(c, latest) => s.(calls := s.calls[c := s.calls[c].(read := Some(latest))])
    case Insert(c, id) => InsertStep(s, c, id)
    case Edit(id, channels) => s.(table := Or(s.table, UpdateForm(s.table, id, channels)))
    case Change(id, action) => s.(table := Or(s.table, ChangeStatus(s.table, id, action)))
  }

  ghost predicate Run(trace: seq<State>, steps: seq<Step>) {
    && |trace| == |steps| + 1 && trace[0] == EMPTY
    && forall i :: 0 <= i < |steps| ==> Enabled(trace[i], steps[i]) && trace[i + 1] == Next(trace[i], steps[i])
  }

  /** An insert with a version that is taken is tried once more from the
      read, and then given up; any other stores a draft. */
  lemma InsertOutcome(s: State, c: nat, id: nat)
    requires Enabled(s, Insert(c, id))
    ensures var call := s.calls[c];
            var version := call.read.value + 1;
            var after := Next(s, Insert(c, id)).calls[c];
            && Next(s, Insert(c, id)).calls == s.calls[c := after]
            && if exists j :: j in s.table && s.table[j].key == call.key && s.table[j].version == version then
                 && Next(s, Insert(c, id)).table == s.table
                 && after == (if call.failed == 0 then call.(read := None, failed := 1)
                              else call.(outcome := Some(Failure(CreateConflict))))
               else
                 && Next(s, Insert(c, id)).table == s.table[id := Form(call.key, version, Draft, call.channels)]
                 && after == call.(outcome := Some(Success(version)))
  {
  }

  /** Only a draft is edited, and only its channels are changed here. */
  lemma EditOutcome(t: Table, id: nat, channels: Option<seq<string>>)
    ensures UpdateForm(t, id, channels)
         == if id in t && t[id].status == Draft
            then Success(if channels.Some? then t[id := t[id].(channels := channels.value)] else t)
            else Failure(if id in t then NotEditable else FormNotFound)
  {
    if id in t { assert t[id := t[id].(channels := t[id].channels)] == t; }
  }

  // ---------------------------------------------------------------------
  // The invariant

  ghost predicate VersionsInv(s: State) {
    && (forall key :: Numbered(s.table, key))
    && (forall i, j :: i in s.table && j in s.table && i != j && s.table[i].key == s.table[j].key ==>
        s.table[i].version != s.table[j].version)
    && (forall c :: c in s.calls && s.calls[c].read.Some? && s.calls[c].outcome.None? ==>
          s.calls[c].read.value == 0 || HasVersion(s.table, s.calls[c].key, s.calls[c].read.value))
  }

  /** No channel has two published forms. */
  ghost predicate OnePerChannel(t: Table) {
    forall i, j :: i in t && j in t && i != j && t[i].status == Published && t[j].status == Published ==>
      !Overlapping(t[i], t[j])
  }

  ghost predicate Inv(s: State) {
    VersionsInv(s) && OnePerChannel(s.table)
  }

  predicate SameVersions(t: Table, u: Table) {
    t.Keys == u.Keys && forall id :: id in t ==> t[id].key == u[id].key && t[id].version == u[id].version
  }

  lemma SameVersionsKeepInv(s: State, u: Table)
    requires VersionsInv(s) && SameVersions(s.table, u)
    ensures VersionsInv(s.(table := u))
  {
    assert forall key, v :: HasVersion(s.table, key, v) <==> HasVersion(u, key, v);
    forall key ensures Numbered(u, key) {
      assert Numbered(s.table, key);
      var n: nat :| Contiguous(s.table, key, n);
      assert Contiguous(u, key, n);
    }
  }

  lemma PublishKeepsOne(t: Table, id: nat)
    requires OnePerChannel(t) && id in t && !Conflicts(t, id)
    ensures OnePerChannel(t[id := t[id].(status := Published)])
  {
    var u := t[id := t[id].(status := Published)];
    forall i, j | i in u && j in u && i != j && u[i].status == Published && u[j].status == Published
      ensures !Overlapping(u[i], u[j])
    {
      assert Overlapping(u[i], u[j]) ==> Overlapping(t[i], t[j]) && Overlapping(t[j], t[i]);
    }
  }

  lemma ChangeKeepsInv(s: State, id: nat, action: StatusAction)
    requires Inv(s)
    ensures Inv(Next(s, Change(id, action)))
  {
    var r := ChangeStatus(s.table, id, action);
    if r.Success? {
      SameVersionsKeepInv(s, r.value);
      if action == Publish { PublishKeepsOne(s.table, id); }
    }
  }

  lemma EditKeepsInv(s: State, id: nat, channels: Option<seq<string>>)
    requires Inv(s)
    ensures Inv(Next(s, Edit(id, channels)))
  {
    var r := UpdateForm(s.table, id, channels);
    if r.Success? { SameVersionsKeepInv(s, r.value); }
  }

  /** A successful insert adds exactly the next version. */
  lemma InsertAddsNext(s: State, c: nat, id: nat, n: nat)
    requires Inv(s) && Enabled(s, Insert(c, id)) && Contiguous(s.table, s.calls[c].key, n)
    requires !HasVersion(s.table, s.calls[c].key, s.calls[c].read.value + 1)
    ensures s.calls[c].read.value == n
    ensures var t := Next(s, Insert(c, id)).table;
            t == s.table[id := Form(s.calls[c].key, n + 1, Draft, s.calls[c].channels)]
              && Contiguous(t, s.calls[c].key, n + 1)
  {
    var t, key := Next(s, Insert(c, id)).table, s.calls[c].key;
    forall v ensures HasVersion(t, key, v) <==> 1 <= v <= n + 1 {
      assert HasVersion(s.table, key, v) ==> HasVersion(t, key, v) by {
        if HasVersion(s.table, key, v) {
          var j :| j in s.table && s.table[j].key == key && s.table[j].version == v;
          assert t[j] == s.table[j];
        }
      }
      assert t[id].version == n + 1;
    }
  }

  lemma InsertKeepsInv(s: State, c: nat, id: nat)
    requires Inv(s) && Enabled(s, Insert(c, id))
    ensures Inv(Next(s, Insert(c, id)))
  {
    var call, u := s.calls[c], Next(s, Insert(c, id));
    if !HasVersion(s.table, call.key, call.read.value + 1) {
      assert Numbered(s.table, call.key);
      var n: nat :| Contiguous(s.table, call.key, n);
      InsertAddsNext(s, c, id, n);
      assert forall key, v :: HasVersion(s.table, key, v) ==> HasVersion(u.table, key, v) by {
        forall key, v | HasVersion(s.table, key, v) ensures HasVersion(u.table, key, v) {
          var j :| j in s.table && s.table[j].key == key && s.table[j].version == v;
          assert u.table[j] == s.table[j];
        }
      }
      forall key ensures Numbered(u.table, key) {
        if key != call.key {
          assert Numbered(s.table, key);
          var m: nat :| Contiguous(s.table, key, m);
          assert forall v :: HasVersion(u.table, key, v) ==> HasVersion(s.table, key, v);
          assert Contiguous(u.table, key, m);
        }
      }
    }
  }

  lemma StepKeepsInv(s: State, step: Step)
    requires Inv(s) && Enabled(s, step)
    ensures Inv(Next(s, step))
  {
    match step
    case Ask(_, _, _) =>
    case ReadLatest(_, _) =>
    case Insert(c, id) => InsertKeepsInv(s, c, id);
    case Edit(id, channels) => EditKeepsInv(s, id, channels);
    case Change(id, action) => ChangeKeepsInv(s, id, action);
  }

  lemma EmptyInv()
    ensures Inv(EMPTY)
  {
    forall key ensures Numbered(EMPTY.table, key) {
      assert Contiguous(EMPTY.table, key, 0);
    }
  }

  lemma {:induction false} RunKeepsInv(trace: seq<State>, steps: seq<Step>, i: nat)
    requires Run(trace, steps) && i < |trace|
    ensures Inv(trace[i])
  {
    EmptyInv();
    if i > 0 {
      RunKeepsInv(trace, steps, i - 1);
      StepKeepsInv(trace[i - 1], steps[i - 1]);
    }
  }

  /** However the reads and inserts of concurrent requests interleave, the
      versions of every key are 1 to n, and an insert that succeeds adds n + 1. */
  lemma VersionsNeverSkip(trace: seq<State>, steps: seq<Step>, i: nat, key: string) returns (n: nat)
    requires Run(trace, steps) && i < |trace|
    ensures Contiguous(trace[i].table, key, n)
    ensures i < |steps| && steps[i].Insert? && trace[i].calls[steps[i].call].key == key
            && trace[i + 1].table != trace[i].table ==>
      Contiguous(trace[i + 1].table, key, n + 1)
  {
    RunKeepsInv(trace, steps, i);
    assert Numbered(trace[i].table, key);
    n :| Contiguous(trace[i].table, key, n);
    if i < |steps| && steps[i].Insert? && trace[i].calls[steps[i].call].key == key
      && trace[i + 1].table != trace[i].table {
      InsertAddsNext(trace[i], steps[i].call, steps[i].id, n);
    }
  }

  // ---------------------------------------------------------------------
  // Looking up the published form of a channel

  predicate Serves(f: Form, channel: string) {
    f.status == Published && channel in f.channels
  }

  ghost predicate IsActive(t: Table, channel: string, found: Option<nat>) {
    if found.Some? then found.value in t && Serves(t[found.value], channel)
    else forall id :: id in t ==> !Serves(t[id], channel)
  }

  /** The lookup has one possible answer, so the order by version in it never
      decides anything. */
  lemma ActiveFormIsUnique(trace: seq<State>, steps: seq<Step>, i: nat, channel: string, a: Option<nat>, b: Option<nat>)
    requires Run(trace, steps) && i < |trace|
    requires IsActive(trace[i].table, channel, a) && IsActive(trace[i].table, channel, b)
    ensures a == b
  {
    RunKeepsInv(trace, steps, i);
    var t := trace[i].table;
    if a.Some? && b.Some? && a != b {
      assert channel in t[a.value].channels && channel in t[b.value].channels;
      assert Overlapping(t[a.value], t[b.value]);
    }
  }

  /** findFirst: published, for the channel, highest version first. */
  method FindPublished(t: Table, channel: string) returns (found: Option<nat>)
    ensures IsActive(t, channel, found)
    ensures found.Some? ==> forall id :: id in t && Serves(t[id], channel) ==> t[id].version <= t[found.value].version
  {
    found := None;
    var left := t.Keys;
    while left != {}
      invariant left <= t.Keys
      invariant found.Some? ==> found.value in t && Serves(t[found.value], channel)
      invariant forall id :: id in t && id !in left && Serves(t[id], channel) ==>
                  found.Some? && t[id].version <= t[found.value].version
      decreases left
    {
      var id :| id in left;
      if Serves(t[id], channel) && (found.None? || t[found.value].version < t[id].version) {
        found := Some(id);
      }
      left := left - {id};
    }
  }

  /** The per-channel cache of one backfill pass. */
  class FormCache {
    const table: Table
    var cache: map<string, Option<nat>>

    ghost predicate Valid()
      reads this
    {
      forall ch :: ch in cache ==> IsActive(table, ch, cache[ch])
    }

    constructor (t: Table)
      ensures table == t && cache == map[] && Valid()
    {
      table := t;
      cache := map[];
    }

    /** A cached answer is the answer a fresh lookup would give. */
    method GetForm(channel: string) returns (found: Option<nat>)
      requires Valid()
      modifies this
      ensures Valid() && IsActive(table, channel, found)
      ensures cache == old(cache)[channel := found]
    {
      if channel in cache {
        found := cache[channel];
      } else {
        found := FindPublished(table, channel);
        cache := cache[channel := found];
      }
    }
  }

  // ---------------------------------------------------------------------
  // The service, one request at a time

  class FormStore {
    var table: Table
    var next: nat

    ghost predicate Valid()
      reads this
    {
      && (forall id :: id in table ==> id < next)
      && Inv(State(table, map[]))
    }

    constructor ()
      ensures Valid() && table == map[]
    {
      table, next := map[], 0;
      EmptyInv();
    }

    method LatestVersion(key: string) returns (latest: int)
      requires Valid()
      ensures IsLatest(table, key, latest)
    {
      latest := 0;
      var left := table.Keys;
      while left != {}
        invariant left <= table.Keys
        invariant latest == 0 || HasVersion(table, key, latest)
        invariant forall id :: id in table && id !in left && table[id].key == key ==> table[id].version <= latest
        decreases left
      {
        var id :| id in left;
        if table[id].key == key && table[id].version > latest {
          latest := table[id].version;
        }
        left := left - {id};
      }
      assert Numbered(table, key);
      ghost var n: nat :| Contiguous(table, key, n);
    }

    method InsertRow(form: Form, ghost n: nat) returns (id: nat)
      requires Valid() && form.status == Draft && Contiguous(table, form.key, n) && form.version == n + 1
      modifies this
      ensures Valid() && id !in old(table) && table == old(table)[id := form]
      ensures Contiguous(table, form.key, n + 1)
    {
      ghost var s := State(table, map[0 := Call(form.key, form.channels, Some(n), 0, None)]);
      LatestOfCount(table, form.key, n);
      id := next;
      InsertKeepsInv(s, 0, id);
      InsertAddsNext(s, 0, id, n);
      table := table[id := form];
      next := next + 1;
    }

    /** No row is lost or changed, and every new one is a draft of the key. */
    static ghost predicate Grown(t: Table, u: Table, key: string) {
      && (forall id :: id in t ==> id in u && u[id] == t[id])
      && (forall id :: id in u && id !in t ==> u[id].key == key && u[id].status == Draft)
    }

    /** rivals[k] is the number of forms that other requests create for the
        same key between the read and the insert of attempt k. The request
        fails exactly when both attempts meet a rival. */
    method CreateForm(key: string, channels: seq<string>, rivals: seq<nat>, ghost n: nat)
      returns (r: Result<int, Error>)
      requires Valid() && |rivals| == 2 && Contiguous(table, key, n)
      modifies this
      ensures Valid()
      ensures r.Failure? <==> channels == [] || (rivals[0] > 0 && rivals[1] > 0)
      ensures r.Failure? ==> r.error == if channels == [] then ChannelRequired else CreateConflict
      ensures r.Success? ==> r.value == n + 1 + rivals[0] && Contiguous(table, key, r.value)
      ensures channels == [] ==> table == old(table)
      ensures Grown(old(table), table, key)
      ensures r.Success? ==>
        exists id :: id in table && id !in old(table) && table[id] == Form(key, r.value, Draft, channels)
    {
      if channels == [] { return Failure(ChannelRequired); }
      for attempt := 0 to 2
        invariant Valid() && Grown(old(table), table, key)
        invariant attempt >= 1 ==> rivals[0] > 0
        invariant attempt == 1 ==> Contiguous(table, key, n + rivals[0])
        invariant attempt == 2 ==> rivals[1] > 0
        invariant attempt == 0 ==> Contiguous(table, key, n)
      {
        ghost var m := if attempt == 0 then n else n + rivals[0];
        var latest := LatestVersion(key);
        LatestIsCount(table, key, latest, m);
        Rivals(key, channels, rivals[attempt], m);
        if !HasVersion(table, key, latest + 1) {
          assert rivals[attempt] == 0;
          var id := InsertRow(Form(key, latest + 1, Draft, channels), m);
          assert table[id] == Form(key, latest + 1, Draft, channels);
          return Success(latest + 1);
        }
      }
      r := Failure(CreateConflict);
    }

    /** The other requests, each adding the next version. */
    method Rivals(key: string, channels: seq<string>, count: nat, ghost n: nat)
      requires Valid() && Contiguous(table, key, n)
      modifies this
      ensures Valid() && Contiguous(table, key, n + count) && Grown(old(table), table, key)
    {
      for i := 0 to count
        invariant Valid() && Contiguous(table, key, n + i) && Grown(old(table), table, key)
      {
        var latest := LatestVersion(key);
        LatestIsCount(table, key, latest, n + i);
        var _ := InsertRow(Form(key, latest + 1, Draft, channels), n + i);
      }
    }

    method SetStatus(id: nat, action: StatusAction) returns (r: Option<Error>)
      requires Valid()
      modifies this
      ensures Valid()
      ensures var spec := ChangeStatus(old(table), id, action);
              table == Or(old(table), spec) && r == if spec.Failure? then Some(spec.error) else None
    {
      if id !in table { return Some(FormNotFound); }
      var form := table[id];
      if !MayChange(form.status, action) { return Some(InvalidTransition); }
      if action == Publish {
        var taken := Conflicts(table, id);
        if taken { return Some(ChannelTaken); }
      }
      ChangeKeepsInv(State(table, map[]), id, action);
      table := table[id := form.(status := Target(action))];
      r := None;
    }

    method Update(id: nat, channels: Option<seq<string>>) returns (r: Option<Error>)
      requires Valid()
      modifies this
      ensures Valid()
      ensures var spec := UpdateForm(old(table), id, channels);
              table == Or(old(table), spec) && r == if spec.Failure? then Some(spec.error) else None
    {
      if id !in table { return Some(FormNotFound); }
      if table[id].status != Draft { return Some(NotEditable); }
      EditKeepsInv(State(table, map[]), id, channels);
      if channels.Some? {
        table := table[id := table[id].(channels := channels.value)];
      }
      r := None;
    }
  }

  lemma LatestIsCount(t: Table, key: string, latest: int, n: nat)
    requires IsLatest(t, key, latest) && Contiguous(t, key, n)
    ensures latest == n
  {
    assert HasVersion(t, key, n) <==> n >= 1;
  }

  lemma LatestOfCount(t: Table, key: string, n: nat)
    requires Contiguous(t, key, n)
    ensures IsLatest(t, key, n)
  {
    assert HasVersion(t, key, n) <==> n >= 1;
  }
}
