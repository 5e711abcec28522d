/** The search for a call recording in conversation content and metadata
    (extractRecordingUrl in
    apps/web/src/components/conversations/call-review-panel.tsx), over a
    finite object graph that may share objects and contain cycles. */
module Recording {
  import opened Wrappers
  import opened Strings

  datatype Value = Nothing | Text(s: string) | Scalar | Ref(id: nat)

  datatype Field = Field(name: string, value: Value)

  datatype Object = List(items: seq<Value>) | Record(fields: seq<Field>)

  /** Every reference leads to an object of the graph. */
  datatype Graph = Graph(objects: map<nat, Object>) {
    ghost predicate Valid() {
      forall id :: id in objects ==> forall v :: v in Children(objects[id]) ==> Closed(v)
    }

    predicate Closed(v: Value) {
      v.Ref? ==> v.id in objects
    }
  }

  function ValuesOf(fields: seq<Field>): (values: seq<Value>)
    ensures |values| == |fields| && forall i :: 0 <= i < |fields| ==> values[i] == fields[i].value
  {
    seq(|fields|, i requires 0 <= i < |fields| => fields[i].value)
  }

  function Children(o: Object): seq<Value> {
    match o case List(items) => items case Record(fields) => ValuesOf(fields)
  }

  // ---------------------------------------------------------------------
  // What looks like audio

  predicate StartsWith(s: string, prefix: string) {
    prefix <= s
  }

  const EXTENSIONS := ["mp3", "wav", "m4a", "ogg", "oga", "opus", "aac", "flac", "webm"]

  predicate Query(s: string) {
    s == "" || (s[0] == '?' && forall c :: c in s ==> c !in {'\n', '\r', '\U{2028}', '\U{2029}'})
  }

  /** The rest of the text after a dot: an extension, then the end or a query
      without line breaks. */
  predicate ExtensionHere(rest: string) {
    exists k :: 0 <= k < |EXTENSIONS| && StartsWith(Lower(rest), EXTENSIONS[k])
      && Query(rest[|EXTENSIONS[k]|..])
  }

  predicate HasAudioExtension(s: string) {
    exists i :: 0 <= i < |s| && s[i] == '.' && ExtensionHere(s[i + 1..])
  }

  predicate LooksLikeAudioUrl(value: string) {
    var normalized := Trim(value);
    normalized != "" &&
    (StartsWith(normalized, "http://") || StartsWith(normalized, "https://") || StartsWith(normalized, "blob:")
     || StartsWith(normalized, "data:audio/") || HasAudioExtension(normalized))
  }

  /** The text up to j ends in a dot and a known extension, in any case. */
  predicate NamedAudio(s: string, i: nat, j: nat) {
    && i < j <= |s| && s[i] == '.' && Query(s[j..])
    && Lower(s[i + 1..j]) in {"mp3", "wav", "m4a", "ogg", "oga", "opus", "aac", "flac", "webm"}
  }

  lemma ExtensionNamed(s: string, i: nat) returns (j: nat)
    requires i < |s| && s[i] == '.' && ExtensionHere(s[i + 1..])
    ensures NamedAudio(s, i, j)
  {
    var rest := s[i + 1..];
    var k :| 0 <= k < |EXTENSIONS| && StartsWith(Lower(rest), EXTENSIONS[k]) && Query(rest[|EXTENSIONS[k]|..]);
    j := i + 1 + |EXTENSIONS[k]|;
    assert rest[|EXTENSIONS[k]|..] == s[j..];
    assert Lower(s[i + 1..j]) == Lower(rest)[..|EXTENSIONS[k]|] == EXTENSIONS[k];
  }

  lemma NamedExtension(s: string, i: nat, j: nat)
    requires NamedAudio(s, i, j)
    ensures ExtensionHere(s[i + 1..])
  {
    var rest, name := s[i + 1..], Lower(s[i + 1..j]);
    assert name in EXTENSIONS;
    var k :| 0 <= k < |EXTENSIONS| && EXTENSIONS[k] == name;
    assert rest[|name|..] == s[j..];
    assert Lower(rest)[..|name|] == name;
    assert StartsWith(Lower(rest), EXTENSIONS[k]) && Query(rest[|EXTENSIONS[k]|..]);
  }

  /** What counts as audio: an address with one of four beginnings, or a name
      that ends in a known extension and a query or nothing. */
  lemma AudioMeaning(value: string)
    ensures LooksLikeAudioUrl(value) <==>
              var s := Trim(value);
              || "http://" <= s || "https://" <= s || "blob:" <= s || "data:audio/" <= s
              || exists i, j :: NamedAudio(s, i, j)
  {
    var s := Trim(value);
    if HasAudioExtension(s) {
      var i :| 0 <= i < |s| && s[i] == '.' && ExtensionHere(s[i + 1..]);
      var j := ExtensionNamed(s, i);
    }
    if i, j :| NamedAudio(s, i, j) {
      NamedExtension(s, i, j);
    }
  }

  predicate IsAudio(v: Value) {
    v.Text? && LooksLikeAudioUrl(v.s)
  }

  // ---------------------------------------------------------------------
  // Reachability

  ghost predicate Path(g: Graph, p: seq<Value>) {
    forall i :: 0 <= i < |p| - 1 ==> p[i].Ref? && p[i].id in g.objects && p[i + 1] in Children(g.objects[p[i].id])
  }

  ghost predicate Reachable(g: Graph, from: Value, to: Value) {
    exists p: seq<Value> :: |p| > 0 && p[0] == from && p[|p| - 1] == to && Path(g, p)
  }

  lemma ReachableSelf(g: Graph, v: Value)
    ensures Reachable(g, v, v)
  {
    assert Path(g, [v]);
  }

  lemma ReachableStep(g: Graph, id: nat, child: Value, to: Value)
    requires id in g.objects && child in Children(g.objects[id]) && Reachable(g, child, to)
    ensures Reachable(g, Ref(id), to)
  {
    var p: seq<Value> :| |p| > 0 && p[0] == child && p[|p| - 1] == to && Path(g, p);
    var q := [Ref(id)] + p;
    assert forall i :: 1 <= i < |q| - 1 ==> q[i] == p[i - 1] && q[i + 1] == p[i];
    assert Path(g, q);
  }

  ghost predicate Around(p: seq<Value>, avoided: set<nat>) {
    forall i :: 0 <= i < |p| - 1 && p[i].Ref? ==> p[i].id !in avoided
  }

  /** No way from v around the avoided objects leads to an audio text. */
  ghost predicate Silent(g: Graph, avoided: set<nat>, v: Value) {
    forall p: seq<Value> :: |p| > 0 && p[0] == v && Path(g, p) && Around(p, avoided) ==> !IsAudio(p[|p| - 1])
  }

  /** Nothing more to look for below v once the visited objects are done. */
  predicate Settled(visited: set<nat>, v: Value) {
    !IsAudio(v) && (v.Ref? ==> v.id in visited)
  }

  ghost predicate Done(g: Graph, visited: set<nat>, id: nat) {
    id in g.objects && forall v :: v in Children(g.objects[id]) ==> Settled(visited, v)
  }

  lemma {:induction false} SettledPath(g: Graph, avoided: set<nat>, visited: set<nat>, p: seq<Value>)
    requires |p| > 0 && Path(g, p) && Around(p, avoided) && Settled(visited, p[0])
    requires forall id :: id in visited && id !in avoided ==> Done(g, visited, id)
    ensures !IsAudio(p[|p| - 1])
  {
    if |p| > 1 {
      assert Done(g, visited, p[0].id);
      assert Path(g, p[1..]) && Around(p[1..], avoided);
      SettledPath(g, avoided, visited, p[1..]);
    }
  }

  /** What the search leaves behind without a find has nothing below it. */
  lemma SettledIsSilent(g: Graph, avoided: set<nat>, visited: set<nat>, v: Value)
    requires Settled(visited, v) && forall id :: id in visited && id !in avoided ==> Done(g, visited, id)
    ensures Silent(g, avoided, v)
  {
    forall p: seq<Value> | |p| > 0 && p[0] == v && Path(g, p) && Around(p, avoided) ensures !IsAudio(p[|p| - 1]) {
      SettledPath(g, avoided, visited, p);
    }
  }

  /** s can be reached from v, and nothing from the values before it. */
  ghost predicate FirstOf(g: Graph, avoided: set<nat>, values: seq<Value>, s: string) {
    exists i :: 0 <= i < |values| && Reachable(g, values[i], Text(s))
                && forall j :: 0 <= j < i ==> Silent(g, avoided, values[j])
  }

  // ---------------------------------------------------------------------
  // The search

  const CANDIDATE_KEYS := [
    "recordingUrl", "recordingURL", "recording_url", "audioUrl", "audioURL", "audio_url",
    "mediaUrl", "mediaURL", "media_url",
    "callRecordingUrl", "callRecordingURL", "call_recording_url", "recording", "audio", "media"]

  /** The first field of that name. */
  predicate FieldAt(fields: seq<Field>, name: string, i: int) {
    0 <= i < |fields| && fields[i].name == name && forall j :: 0 <= j < i ==> fields[j].name != name
  }

  /** record[key] */
  function Lookup(fields: seq<Field>, name: string): (v: Value)
    ensures v != Nothing ==> v in ValuesOf(fields)
    ensures (forall i :: 0 <= i < |fields| ==> fields[i].name != name) ==> v == Nothing
    ensures forall i :: FieldAt(fields, name, i) ==> v == fields[i].value
  {
    if fields == [] then Nothing
    else if fields[0].name == name then
      assert ValuesOf(fields)[0] == fields[0].value;
      fields[0].value
    else
      var v := Lookup(fields[1..], name);
      assert forall x :: x in ValuesOf(fields[1..]) ==> x in ValuesOf(fields) by {
        assert ValuesOf(fields)[1..] == ValuesOf(fields[1..]);
      }
      v
  }

  /** The url field of a value that is a record; a list has none. */
  function UrlOf(g: Graph, v: Value): Value {
    if v.Ref? && v.id in g.objects && g.objects[v.id].Record? then Lookup(g.objects[v.id].fields, "url") else Nothing
  }

  /** record[key] is an audio text, or a record whose url is one. */
  predicate Holds(g: Graph, fields: seq<Field>, key: string, s: string) {
    var v := Lookup(fields, key);
    && LooksLikeAudioUrl(s)
    && (v == Text(s)
        || (v.Ref? && v.id in g.objects && g.objects[v.id].Record?
            && Lookup(g.objects[v.id].fields, "url") == Text(s)))
  }

  /** The record's own url, unless its mime type says that it is not audio. */
  predicate OwnUrl(fields: seq<Field>, s: string) {
    && LooksLikeAudioUrl(s) && Lookup(fields, "url") == Text(s)
    && match Lookup(fields, "mimeType") case Text(t) => "audio/" <= t case _ => true
  }

  ghost predicate NoneHolds(g: Graph, fields: seq<Field>, k: nat)
    requires k <= |CANDIDATE_KEYS|
  {
    forall j, t :: 0 <= j < k ==> !Holds(g, fields, CANDIDATE_KEYS[j], t)
  }

  /** The text a record stands for: what the first candidate key holds, or
      failing all keys its own url. */
  ghost predicate Candidate(g: Graph, fields: seq<Field>, s: string) {
    || (exists k :: 0 <= k < |CANDIDATE_KEYS| && Holds(g, fields, CANDIDATE_KEYS[k], s) && NoneHolds(g, fields, k))
    || (NoneHolds(g, fields, |CANDIDATE_KEYS|) && OwnUrl(fields, s))
  }

  lemma OneHeld(g: Graph, fields: seq<Field>, key: string, s: string, t: string)
    requires Holds(g, fields, key, s) && Holds(g, fields, key, t)
    ensures s == t
  {
  }

  lemma FirstHeld(g: Graph, fields: seq<Field>, k: nat, s: string, t: string)
    requires k < |CANDIDATE_KEYS| && Holds(g, fields, CANDIDATE_KEYS[k], s) && NoneHolds(g, fields, k)
    requires Candidate(g, fields, t)
    ensures s == t
  {
    assert !NoneHolds(g, fields, |CANDIDATE_KEYS|);
    var l :| 0 <= l < |CANDIDATE_KEYS| && Holds(g, fields, CANDIDATE_KEYS[l], t) && NoneHolds(g, fields, l);
    assert l >= k && k >= l;
    OneHeld(g, fields, CANDIDATE_KEYS[k], s, t);
  }

  lemma OneCandidate(g: Graph, fields: seq<Field>, s: string, t: string)
    requires Candidate(g, fields, s) && Candidate(g, fields, t)
    ensures s == t
  {
    if !NoneHolds(g, fields, |CANDIDATE_KEYS|) {
      var k :| 0 <= k < |CANDIDATE_KEYS| && Holds(g, fields, CANDIDATE_KEYS[k], s) && NoneHolds(g, fields, k);
      FirstHeld(g, fields, k, s, t);
    }
  }

  /** The value is a record that stands for this text. */
  ghost predicate StandsFor(g: Graph, v: Value, s: string) {
    v.Ref? && v.id in g.objects && g.objects[v.id].Record? && Candidate(g, g.objects[v.id].fields, s)
  }

  class Search {
    const graph: Graph
    var visited: set<nat>

    constructor (g: Graph)
      ensures graph == g && visited == {}
    {
      graph := g;
      visited := {};
    }

    /** The candidate keys of one record, and its own url unless its mime
        type says that it is not audio. */
    method Shortcut(fields: seq<Field>) returns (found: Option<string>)
      ensures found.Some? ==> Candidate(graph, fields, found.value) && LooksLikeAudioUrl(found.value)
      ensures found.None? <==> NoneHolds(graph, fields, |CANDIDATE_KEYS|) && forall t :: !OwnUrl(fields, t)
      ensures found.Some? ==> Text(found.value) in ValuesOf(fields)
                              || exists v :: v in ValuesOf(fields) && v.Ref? && v.id in graph.objects
                                             && Text(found.value) in Children(graph.objects[v.id])
    {
      for i := 0 to |CANDIDATE_KEYS|
        invariant NoneHolds(graph, fields, i)
      {
        var value := Lookup(fields, CANDIDATE_KEYS[i]);
        if IsAudio(value) {
          assert Holds(graph, fields, CANDIDATE_KEYS[i], value.s);
          return Some(value.s);
        }
        var nested := UrlOf(graph, value);
        if IsAudio(nested) {
          assert Holds(graph, fields, CANDIDATE_KEYS[i], nested.s);
          return Some(nested.s);
        }
      }
      var url, mimeType := Lookup(fields, "url"), Lookup(fields, "mimeType");
      if IsAudio(url) && (!mimeType.Text? || StartsWith(mimeType.s, "audio/")) {
        assert OwnUrl(fields, url.s);
        return Some(url.s);
      }
      found := None;
    }

    /** A found text is audio and reachable: a record that stands for a text
        yields that text, and any other object the text of its first child
        from which there is one. With nothing found, the value and every
        object visited on the way are settled. */
    method Visit(input: Value) returns (found: Option<string>)
      requires graph.Valid() && graph.Closed(input)
      modifies this
      ensures old(visited) <= visited
      ensures found.Some? ==> LooksLikeAudioUrl(found.value) && Reachable(graph, input, Text(found.value))
      ensures found.None? ==> Settled(visited, input)
      ensures found.None? ==> forall id :: id in visited && id !in old(visited) ==> Done(graph, visited, id)
      ensures input.Ref? && input.id in old(visited) ==> found.None?
      ensures input.Ref? && input.id !in old(visited) ==>
        && (forall s :: StandsFor(graph, input, s) ==> found == Some(s))
        && ((forall s :: !StandsFor(graph, input, s)) && found.Some? ==>
              FirstOf(graph, old(visited) + {input.id}, Children(graph.objects[input.id]), found.value))
      decreases graph.objects.Keys - visited, 0
    {
      if IsAudio(input) {
        ReachableSelf(graph, input);
        return Some(input.s);
      }
      if !input.Ref? || input.id in visited { return None; }
      visited := visited + {input.id};
      var node := graph.objects[input.id];
      if node.Record? {
        found := Shortcut(node.fields);
        if found.Some? {
          ShortcutReachable(input.id, found.value);
          assert StandsFor(graph, input, found.value);
          forall s | StandsFor(graph, input, s) ensures found == Some(s) {
            OneCandidate(graph, node.fields, s, found.value);
          }
          return;
        }
      }
      assert forall s :: !StandsFor(graph, input, s);
      found := VisitAll(input.id, Children(node));
    }

    lemma ShortcutReachable(id: nat, s: string)
      requires id in graph.objects
      requires Text(s) in Children(graph.objects[id])
               || exists v :: v in Children(graph.objects[id]) && v.Ref? && v.id in graph.objects
                              && Text(s) in Children(graph.objects[v.id])
      ensures Reachable(graph, Ref(id), Text(s))
    {
      ReachableSelf(graph, Text(s));
      if Text(s) in Children(graph.objects[id]) {
        ReachableStep(graph, id, Text(s), Text(s));
      } else {
        var v :| v in Children(graph.objects[id]) && v.Ref? && v.id in graph.objects
          && Text(s) in Children(graph.objects[v.id]);
        ReachableStep(graph, v.id, Text(s), Text(s));
        ReachableStep(graph, id, v, Text(s));
      }
    }

    /** The loop over the items of a list or the values of a record. */
    method VisitAll(id: nat, values: seq<Value>) returns (found: Option<string>)
      requires graph.Valid() && id in graph.objects && id in visited && values == Children(graph.objects[id])
      modifies this
      ensures old(visited) <= visited
      ensures found.Some? ==> LooksLikeAudioUrl(found.value) && Reachable(graph, Ref(id), Text(found.value))
      ensures found.Some? ==> FirstOf(graph, old(visited), values, found.value)
      ensures found.None? ==> Done(graph, visited, id)
      ensures found.None? ==> forall n :: n in visited && n !in old(visited) ==> Done(graph, visited, n)
      decreases graph.objects.Keys - visited, 1
    {
      for i := 0 to |values|
        invariant old(visited) <= visited
        invariant forall j :: 0 <= j < i ==> Settled(visited, values[j])
        invariant forall n :: n in visited && n !in old(visited) ==> Done(graph, visited, n)
      {
        ghost var before := visited;
        found := Visit(values[i]);
        if found.Some? {
          ReachableStep(graph, id, values[i], Text(found.value));
          forall j | 0 <= j < i ensures Silent(graph, old(visited), values[j]) {
            SettledIsSilent(graph, old(visited), before, values[j]);
          }
          return;
        }
        forall n | n in visited && n !in old(visited) ensures Done(graph, visited, n) {
          if n in before { assert Done(graph, before, n); }
        }
      }
      found := None;
    }
  }

  lemma SilentIsUnreachable(g: Graph, v: Value, s: string)
    requires Silent(g, {}, v) && LooksLikeAudioUrl(s)
    ensures !Reachable(g, v, Text(s))
  {
    if Reachable(g, v, Text(s)) {
      var p: seq<Value> :| |p| > 0 && p[0] == v && p[|p| - 1] == Text(s) && Path(g, p);
      assert Around(p, {});
    }
  }

  ghost predicate Unreachable(g: Graph, v: Value) {
    forall s :: LooksLikeAudioUrl(s) ==> !Reachable(g, v, Text(s))
  }

  lemma SilentSource(g: Graph, visited: set<nat>, v: Value)
    requires Settled(visited, v) && forall id :: id in visited ==> Done(g, visited, id)
    ensures Unreachable(g, v)
  {
    SettledIsSilent(g, {}, visited, v);
    forall s | LooksLikeAudioUrl(s) ensures !Reachable(g, v, Text(s)) {
      SilentIsUnreachable(g, v, s);
    }
  }

  /** s is the answer of source i: no source before it has any, and it is the
      text that the source stands for, if it stands for one. */
  ghost predicate AnswerOf(g: Graph, sources: seq<Value>, i: nat, s: string)
    requires i < |sources|
  {
    && LooksLikeAudioUrl(s) && Reachable(g, sources[i], Text(s))
    && (forall t :: StandsFor(g, sources[i], t) ==> t == s)
    && forall j :: 0 <= j < i ==> Unreachable(g, sources[j])
  }

  /** The result comes from the first source from which any audio text can be
      reached, and is null exactly when there is none. */
  method ExtractRecordingUrl(g: Graph, sources: seq<Value>) returns (found: Option<string>)
    requires g.Valid() && forall v :: v in sources ==> g.Closed(v)
    ensures found.Some? ==> exists i: nat :: i < |sources| && AnswerOf(g, sources, i, found.value)
    ensures found.None? <==> forall i :: 0 <= i < |sources| ==> Unreachable(g, sources[i])
  {
    var search := new Search(g);
    for i := 0 to |sources|
      invariant search.graph == g && fresh(search)
      invariant forall j :: 0 <= j < i ==> Settled(search.visited, sources[j])
      invariant forall n :: n in search.visited ==> Done(g, search.visited, n)
    {
      ghost var before := search.visited;
      found := search.Visit(sources[i]);
      if found.Some? {
        forall j | 0 <= j < i ensures Unreachable(g, sources[j]) {
          SilentSource(g, before, sources[j]);
        }
        assert AnswerOf(g, sources, i, found.value);
        return;
      }
      forall n | n in search.visited ensures Done(g, search.visited, n) {
        if n in before { assert Done(g, before, n); }
      }
    }
    found := None;
    forall i | 0 <= i < |sources| ensures Unreachable(g, sources[i]) {
      SilentSource(g, search.visited, sources[i]);
    }
  }
}
