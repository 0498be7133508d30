/** Checkpoint channels: named values with a reducer each, merged along a checkpoint's
    ancestry. The merge loop is proved to fold each key's entries on its own, whatever order
    the keys are visited in, and the folds get closed forms. */
module Channels {
  import opened Events

  /** Numbers keep the integer/float distinction because set membership sees it. */
  datatype Json =
    | Null
    | Bool(b: bool)
    | Integer(i: int)
    | Float(x: real)
    | Text(s: string)
    | Array(items: seq<Json>)
    | Object(fields: map<string, Json>)

  datatype ReducerKind = Overwrite | Append | SetUnion | Sum

  datatype Entry = Entry(reducer: ReducerKind, value: Json)

  /** A node's channels in the order its map yields them. */
  type Channels = seq<(string, Entry)>

  const REQUIRED_CHANNELS: seq<string> := ["objectives", "progress_summary", "decisions", "blockers"]

  // ---------- reducers ----------

  function ItemsOf(v: Json): seq<Json> {
    if v.Array? then v.items else []
  }

  function NumberOf(v: Json): real {
    if v.Integer? then v.i as real else if v.Float? then v.x else 0.0
  }

  /** items pushed one at a time onto base, skipping what is already there. */
  function Union(base: seq<Json>, items: seq<Json>): seq<Json> {
    if |items| == 0 then base
    else
      var rest := Union(base, items[..|items| - 1]);
      var last := items[|items| - 1];
      if last in rest then rest else rest + [last]
  }

  function Reduce(reducer: ReducerKind, existing: Option<Json>, value: Json): Json {
    match reducer
    case Overwrite => value
    case Append => Array(Held(existing) + ItemsOf(value))
    case SetUnion => Array(Union(Held(existing), ItemsOf(value)))
    case Sum => Float((if existing.Some? then NumberOf(existing.value) else 0.0) + NumberOf(value))
  }

  function Held(existing: Option<Json>): seq<Json> {
    if existing.Some? then ItemsOf(existing.value) else []
  }

  method ApplyReducer(reducer: ReducerKind, existing: Option<Json>, value: Json) returns (r: Json)
    ensures r == Reduce(reducer, existing, value)
  {
    match reducer {
      case Overwrite =>
        r := value;
      case Append =>
        var arr := if existing.Some? && existing.value.Array? then existing.value.items else [];
        if value.Array? {
          arr := arr + value.items;
        } else {
          assert arr + [] == arr;
        }
        r := Array(arr);
      case SetUnion =>
        var held := if existing.Some? && existing.value.Array? then existing.value.items else [];
        if value.Array? {
          ghost var start := held;
          for k := 0 to |value.items|
            invariant held == Union(start, value.items[..k])
          {
            assert value.items[..k + 1][..k] == value.items[..k];
            if value.items[k] !in held {
              held := held + [value.items[k]];
            }
          }
          assert value.items[..|value.items|] == value.items;
        }
        r := Array(held);
      case Sum =>
        var before := if existing.Some? then NumberOf(existing.value) else 0.0;
        r := Float(before + NumberOf(value));
    }
  }

  // ---------- the merge ----------

  /** One key's entries in a node, and along an ancestry, in order. */
  function Of(node: Channels, key: string): seq<Entry> {
    if |node| == 0 then []
    else
      var last := node[|node| - 1];
      Of(node[..|node| - 1], key) + (if last.0 == key then [last.1] else [])
  }

  function Along(ancestry: seq<Channels>, key: string): seq<Entry> {
    if |ancestry| == 0 then []
    else Along(ancestry[..|ancestry| - 1], key) + Of(ancestry[|ancestry| - 1], key)
  }

  function Fold(entries: seq<Entry>): (r: Option<Json>)
    ensures r.None? <==> |entries| == 0
  {
    if |entries| == 0 then None
    else
      var last := entries[|entries| - 1];
      Some(Reduce(last.reducer, Fold(entries[..|entries| - 1]), last.value))
  }

  function Lookup(m: map<string, Json>, key: string): Option<Json> {
    if key in m then Some(m[key]) else None
  }

  ghost predicate IsMerge(m: map<string, Json>, ancestry: seq<Channels>, node: Channels) {
    forall key :: Lookup(m, key) == Fold(Along(ancestry, key) + Of(node, key))
  }

  lemma MergeOne(m: map<string, Json>, ancestry: seq<Channels>, node: Channels, key: string, entry: Entry)
    requires IsMerge(m, ancestry, node)
    ensures IsMerge(m[key := Reduce(entry.reducer, Lookup(m, key), entry.value)], ancestry, node + [(key, entry)])
  {
    var merged := m[key := Reduce(entry.reducer, Lookup(m, key), entry.value)];
    assert (node + [(key, entry)])[..|node|] == node;
    forall k ensures Lookup(merged, k) == Fold(Along(ancestry, k) + Of(node + [(key, entry)], k)) {
      var so := Along(ancestry, k) + Of(node, k);
      if k == key {
        assert Along(ancestry, k) + Of(node + [(key, entry)], k) == so + [entry];
        assert (so + [entry])[..|so|] == so;
      } else {
        assert Along(ancestry, k) + Of(node + [(key, entry)], k) == so;
      }
    }
  }

  lemma MergeNode(m: map<string, Json>, ancestry: seq<Channels>, node: Channels)
    requires IsMerge(m, ancestry, node)
    ensures IsMerge(m, ancestry + [node], [])
  {
    assert (ancestry + [node])[..|ancestry|] == ancestry;
    forall k ensures Lookup(m, k) == Fold(Along(ancestry + [node], k) + Of([], k)) {
      assert Along(ancestry + [node], k) + [] == Along(ancestry, k) + Of(node, k);
    }
  }

  /** The result maps exactly the keys that occur, each to the fold of its own entries. */
  method MergeChannels(ancestry: seq<Channels>) returns (merged: map<string, Json>)
    ensures forall key :: Lookup(merged, key) == Fold(Along(ancestry, key))
  {
    merged := map[];
    for n := 0 to |ancestry|
      invariant IsMerge(merged, ancestry[..n], [])
    {
      var node := ancestry[n];
      for k := 0 to |node|
        invariant IsMerge(merged, ancestry[..n], node[..k])
      {
        var (key, entry) := node[k];
        var existing := if key in merged then Some(merged[key]) else None;
        MergeOne(merged, ancestry[..n], node[..k], key, entry);
        assert node[..k + 1] == node[..k] + [(key, entry)];
        merged := merged - {key};
        var reduced := ApplyReducer(entry.reducer, existing, entry.value);
        merged := merged[key := reduced];
      }
      assert node[..|node|] == node;
      MergeNode(merged, ancestry[..n], node);
      assert ancestry[..n + 1] == ancestry[..n] + [node];
    }
    assert ancestry[..|ancestry|] == ancestry;
    forall key ensures Lookup(merged, key) == Fold(Along(ancestry, key)) {
      assert Along(ancestry, key) + Of([], key) == Along(ancestry, key);
    }
  }

  // ---------- closed forms, one reducer per key ----------

  predicate Uniform(entries: seq<Entry>, reducer: ReducerKind) {
    forall k :: 0 <= k < |entries| ==> entries[k].reducer == reducer
  }

  function AllItems(entries: seq<Entry>): seq<Json> {
    if |entries| == 0 then []
    else
      var v := entries[|entries| - 1].value;
      AllItems(entries[..|entries| - 1]) + if v.Array? then v.items else []
  }

  function Total(entries: seq<Entry>): real {
    if |entries| == 0 then 0.0
    else
      var v := entries[|entries| - 1].value;
      Total(entries[..|entries| - 1]) + if v.Integer? then v.i as real else if v.Float? then v.x else 0.0
  }

  /** The first occurrence of every item, in order. */
  function Distinct(items: seq<Json>): seq<Json> {
    Union([], items)
  }

  lemma OverwriteKeepsLast(entries: seq<Entry>)
    requires |entries| > 0 && Uniform(entries, Overwrite)
    ensures Fold(entries) == Some(entries[|entries| - 1].value)
  {
  }

  lemma {:induction false} AppendConcatenates(entries: seq<Entry>)
    requires |entries| > 0 && Uniform(entries, Append)
    ensures Fold(entries) == Some(Array(AllItems(entries)))
  {
    var front := entries[..|entries| - 1];
    if |front| > 0 {
      AppendConcatenates(front);
    }
  }

  lemma {:induction false} UnionSplits(base: seq<Json>, s: seq<Json>, t: seq<Json>)
    ensures Union(base, s + t) == Union(Union(base, s), t)
  {
    if |t| == 0 {
      assert s + t == s;
    } else {
      assert (s + t)[..|s + t| - 1] == s + t[..|t| - 1];
      UnionSplits(base, s, t[..|t| - 1]);
    }
  }

  lemma {:induction false} SetUnionIsDistinct(entries: seq<Entry>)
    requires |entries| > 0 && Uniform(entries, SetUnion)
    ensures Fold(entries) == Some(Array(Distinct(AllItems(entries))))
  {
    var front := entries[..|entries| - 1];
    if |front| > 0 {
      SetUnionIsDistinct(front);
    }
    UnionSplits([], AllItems(front), ItemsOf(entries[|entries| - 1].value));
  }

  lemma {:induction false} SumIsTotal(entries: seq<Entry>)
    requires |entries| > 0 && Uniform(entries, Sum)
    ensures Fold(entries) == Some(Float(Total(entries)))
  {
    var front := entries[..|entries| - 1];
    if |front| > 0 {
      SumIsTotal(front);
    }
  }

  predicate NoDuplicates(s: seq<Json>) {
    forall i, j :: 0 <= i < j < |s| ==> s[i] != s[j]
  }

  /** Where x first occurs. */
  function First(s: seq<Json>, x: Json): (i: nat)
    requires x in s
    ensures i < |s| && s[i] == x && x !in s[..i]
  {
    if s[0] == x then 0 else 1 + First(s[1..], x)
  }

  lemma {:induction false} FirstStays(s: seq<Json>, t: seq<Json>, x: Json)
    requires x in s
    ensures First(s + t, x) == First(s, x)
  {
    if s[0] != x {
      assert (s + t)[1..] == s[1..] + t;
      FirstStays(s[1..], t, x);
    }
  }

  /** The order-preserving duplicate-free union: same members, none twice, and in the order
      in which they first occur. */
  lemma {:induction false} DistinctMeaning(items: seq<Json>)
    ensures NoDuplicates(Distinct(items))
    ensures forall x :: x in Distinct(items) <==> x in items
    ensures var d := Distinct(items);
      forall i, j :: 0 <= i < j < |d| ==> First(items, d[i]) < First(items, d[j])
  {
    if |items| > 0 {
      var front, last := items[..|items| - 1], items[|items| - 1];
      DistinctMeaning(front);
      assert items == front + [last];
      var was, now := Distinct(front), Distinct(items);
      forall i | 0 <= i < |was| ensures First(items, was[i]) == First(front, was[i]) {
        FirstStays(front, [last], was[i]);
      }
      if last !in front {
        assert First(items, last) == |front|;
      }
    }
  }

  // ---------- collapsing a prefix ----------

  /** What a reducer leaves alone when it is the first to see it. */
  predicate Settled(reducer: ReducerKind, v: Json) {
    match reducer
    case Overwrite => true
    case Append => v.Array?
    case SetUnion => v.Array? && NoDuplicates(v.items)
    case Sum => v.Float?
  }

  lemma {:induction false} DistinctOfDistinct(s: seq<Json>)
    ensures Distinct(s) == s <==> NoDuplicates(s)
  {
    DistinctMeaning(s);
    if NoDuplicates(s) && |s| > 0 {
      var front := s[..|s| - 1];
      DistinctOfDistinct(front);
      assert s == front + [s[|s| - 1]];
    }
  }

  lemma SettledMeaning(reducer: ReducerKind, v: Json)
    ensures Settled(reducer, v) <==> Reduce(reducer, None, v) == v
  {
    if v.Array? {
      assert [] + v.items == v.items;
      DistinctOfDistinct(v.items);
    }
  }

  lemma UniformIsSettled(entries: seq<Entry>, reducer: ReducerKind)
    requires |entries| > 0 && Uniform(entries, reducer)
    ensures Settled(reducer, Fold(entries).value)
  {
    match reducer
    case Overwrite =>
    case Append => AppendConcatenates(entries);
    case SetUnion =>
      SetUnionIsDistinct(entries);
      DistinctMeaning(AllItems(entries));
    case Sum => SumIsTotal(entries);
  }

  lemma {:induction false} FoldFrom(p: seq<Entry>, q: seq<Entry>, rest: seq<Entry>)
    requires Fold(p) == Fold(q)
    ensures Fold(p + rest) == Fold(q + rest)
  {
    if |rest| == 0 {
      assert p + rest == p && q + rest == q;
    } else {
      var front := rest[..|rest| - 1];
      FoldFrom(p, q, front);
      assert (p + rest)[..|p + rest| - 1] == p + front;
      assert (q + rest)[..|q + rest| - 1] == q + front;
    }
  }

  /** One entry holding the merged value stands for the entries it was merged from, whatever
      follows, exactly when the reducer it carries leaves that value alone. */
  lemma CollapsedEntries(p: seq<Entry>, reducer: ReducerKind)
    requires |p| > 0
    ensures var root := [Entry(reducer, Fold(p).value)];
            Settled(reducer, Fold(p).value) <==> forall rest :: Fold(root + rest) == Fold(p + rest)
  {
    var root := [Entry(reducer, Fold(p).value)];
    SettledMeaning(reducer, Fold(p).value);
    assert root[..0] == [];
    if Settled(reducer, Fold(p).value) {
      forall rest ensures Fold(root + rest) == Fold(p + rest) {
        FoldFrom(root, p, rest);
      }
    } else {
      assert root + [] == root && p + [] == p;
    }
  }

  lemma AlongSnoc(a: seq<Channels>, node: Channels, key: string)
    ensures Along(a + [node], key) == Along(a, key) + Of(node, key)
  {
    assert (a + [node])[..|a|] == a;
  }

  lemma {:induction false} AlongSplits(a: seq<Channels>, b: seq<Channels>, key: string)
    ensures Along(a + b, key) == Along(a, key) + Along(b, key)
  {
    if |b| == 0 {
      assert a + b == a;
    } else {
      var front, last := b[..|b| - 1], b[|b| - 1];
      AlongSplits(a, front, key);
      AlongSnoc(a + front, last, key);
      AlongSnoc(front, last, key);
      assert a + b == (a + front) + [last] && b == front + [last];
    }
  }

  /** Every key keeps one reducer along the ancestry. */
  ghost predicate OneReducerPerKey(ancestry: seq<Channels>, reducers: map<string, ReducerKind>) {
    forall key :: |Along(ancestry, key)| > 0 ==> key in reducers && Uniform(Along(ancestry, key), reducers[key])
  }

  /** root holds, for every key of the prefix, its merged value under its reducer. */
  ghost predicate Collapses(root: Channels, prefix: seq<Channels>, reducers: map<string, ReducerKind>) {
    forall key :: Of(root, key) == Root(prefix, reducers, key)
  }

  function Root(prefix: seq<Channels>, reducers: map<string, ReducerKind>, key: string): seq<Entry> {
    var merged := Fold(Along(prefix, key));
    if merged.Some? && key in reducers then [Entry(reducers[key], merged.value)] else []
  }

  /** With one reducer per key, any prefix of the ancestry can be replaced by one node that
      holds its merge: every later checkpoint merges to the same channels. */
  lemma CollapsedPrefix(prefix: seq<Channels>, rest: seq<Channels>, root: Channels,
      reducers: map<string, ReducerKind>, key: string)
    requires OneReducerPerKey(prefix, reducers)
    requires Collapses(root, prefix, reducers)
    ensures Fold(Along([root] + rest, key)) == Fold(Along(prefix + rest, key))
  {
    AlongSplits([root], rest, key);
    AlongSplits(prefix, rest, key);
    var p := Along(prefix, key);
    assert [root][..0] == [];
    assert Along([root], key) == [] + Of(root, key) == Of(root, key);
    assert Of(root, key) == Root(prefix, reducers, key);
    if |p| > 0 {
      UniformIsSettled(p, reducers[key]);
      CollapsedEntries(p, reducers[key]);
    }
  }

  // ---------- validation ----------

  datatype ChannelError =
    | MissingRequired(name: string)
    | NotAnArray(name: string, reducer: ReducerKind)
    | NotANumber(name: string)

  predicate Has(channels: Channels, name: string) {
    exists k :: 0 <= k < |channels| && channels[k].0 == name
  }

  /** Appending and uniting need an array, summing a number, and overwriting takes anything. */
  predicate WellTypedEntry(entry: Entry) {
    && (entry.reducer.Append? || entry.reducer.SetUnion? ==> entry.value.Array?)
    && (entry.reducer.Sum? ==> entry.value.Integer? || entry.value.Float?)
  }

  predicate FirstComplaint(channels: Channels, k: nat) {
    && k < |channels|
    && !WellTypedEntry(channels[k].1)
    && forall j :: 0 <= j < k ==> WellTypedEntry(channels[j].1)
  }

  predicate FirstMissing(channels: Channels, k: nat) {
    && k < |REQUIRED_CHANNELS|
    && !Has(channels, REQUIRED_CHANNELS[k])
    && forall j :: 0 <= j < k ==> Has(channels, REQUIRED_CHANNELS[j])
  }

  predicate HasRequired(channels: Channels) {
    forall k :: 0 <= k < |REQUIRED_CHANNELS| ==> Has(channels, REQUIRED_CHANNELS[k])
  }

  /** The four channels every checkpoint has. */
  predicate NamesRequired(channels: Channels) {
    && Has(channels, "objectives") && Has(channels, "progress_summary")
    && Has(channels, "decisions") && Has(channels, "blockers")
  }

  lemma RequiredNames(channels: Channels)
    ensures HasRequired(channels) <==> NamesRequired(channels)
  {
    assert Has(channels, REQUIRED_CHANNELS[0]) <==> Has(channels, "objectives");
    assert Has(channels, REQUIRED_CHANNELS[1]) <==> Has(channels, "progress_summary");
    assert Has(channels, REQUIRED_CHANNELS[2]) <==> Has(channels, "decisions");
    assert Has(channels, REQUIRED_CHANNELS[3]) <==> Has(channels, "blockers");
  }

  predicate WellTyped(channels: Channels) {
    forall k :: 0 <= k < |channels| ==> WellTypedEntry(channels[k].1)
  }

  method ContainsKey(channels: Channels, name: string) returns (found: bool)
    ensures found <==> Has(channels, name)
  {
    found := false;
    for k := 0 to |channels|
      invariant found <==> exists j :: 0 <= j < k && channels[j].0 == name
    {
      if channels[k].0 == name {
        found := true;
      }
    }
  }

  /** No error exactly on a complete, well-typed node; otherwise the first missing required
      name, and only when none is missing the first badly typed entry. */
  method ValidateChannels(channels: Channels) returns (error: Option<ChannelError>)
    ensures error.None? <==> HasRequired(channels) && WellTyped(channels)
    ensures error.None? ==> NamesRequired(channels)
    ensures !HasRequired(channels)
        ==> exists k: nat :: FirstMissing(channels, k) && error == Some(MissingRequired(REQUIRED_CHANNELS[k]))
    ensures HasRequired(channels) && !WellTyped(channels)
        ==> exists k: nat :: FirstComplaint(channels, k)
              && error == Some(if channels[k].1.reducer.Sum? then NotANumber(channels[k].0)
                               else NotAnArray(channels[k].0, channels[k].1.reducer))
  {
    RequiredNames(channels);
    for k := 0 to |REQUIRED_CHANNELS|
      invariant forall j :: 0 <= j < k ==> Has(channels, REQUIRED_CHANNELS[j])
    {
      var found := ContainsKey(channels, REQUIRED_CHANNELS[k]);
      if !found {
        assert FirstMissing(channels, k);
        return Some(MissingRequired(REQUIRED_CHANNELS[k]));
      }
    }
    for k := 0 to |channels|
      invariant forall j :: 0 <= j < k ==> WellTypedEntry(channels[j].1)
    {
      var (name, entry) := channels[k];
      match entry.reducer {
        case Append =>
          if !entry.value.Array? {
            assert FirstComplaint(channels, k);
            return Some(NotAnArray(name, entry.reducer));
          }
        case SetUnion =>
          if !entry.value.Array? {
            assert FirstComplaint(channels, k);
            return Some(NotAnArray(name, entry.reducer));
          }
        case Sum =>
          if !(entry.value.Integer? || entry.value.Float?) {
            assert FirstComplaint(channels, k);
            return Some(NotANumber(name));
          }
        case Overwrite =>
      }
    }
    return None;
  }

  lemma {:induction false} OfOccurs(node: Channels, key: string)
    ensures |Of(node, key)| > 0 <==> Has(node, key)
  {
    if |node| > 0 {
      var front := node[..|node| - 1];
      OfOccurs(front, key);
      if Has(front, key) {
        var k :| 0 <= k < |front| && front[k].0 == key;
        assert node[k].0 == key;
      }
    }
  }

  /** A merge never drops a required channel, and the node that collapses an ancestry is well
      typed: what the merge produces passes the validation again. */
  lemma CollapsedNodeIsValid(prefix: seq<Channels>, root: Channels, reducers: map<string, ReducerKind>)
    requires |prefix| > 0 && HasRequired(prefix[|prefix| - 1])
    requires OneReducerPerKey(prefix, reducers)
    requires Collapses(root, prefix, reducers)
    ensures HasRequired(root)
    ensures WellTyped(root)
  {
    var last := prefix[|prefix| - 1];
    forall k | 0 <= k < |REQUIRED_CHANNELS| ensures Has(root, REQUIRED_CHANNELS[k]) {
      var key := REQUIRED_CHANNELS[k];
      assert Has(last, key);
      OfOccurs(last, key);
      assert |Along(prefix, key)| > 0;
      assert Of(root, key) == Root(prefix, reducers, key);
      OfOccurs(root, key);
    }
    forall k | 0 <= k < |root| ensures WellTypedEntry(root[k].1) {
      var key := root[k].0;
      OfHolds(root, k);
      assert Of(root, key) == Root(prefix, reducers, key);
      assert |Along(prefix, key)| > 0;
      UniformIsSettled(Along(prefix, key), reducers[key]);
    }
  }

  lemma {:induction false} OfHolds(node: Channels, k: nat)
    requires k < |node|
    ensures node[k].1 in Of(node, node[k].0)
  {
    if k < |node| - 1 {
      OfHolds(node[..|node| - 1], k);
    }
  }
}
