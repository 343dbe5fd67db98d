/** loadDescriptors: the work list that turns a schema tree into one descriptor per property path. */
module Descriptors {
  import opened Strings

  /** A property of the schema: its description and the properties of its array items, in the order of their keys. */
  datatype Schema = Schema(description: string, props: seq<Prop>)
  datatype Prop = Prop(key: string, value: Schema)

  const ABSENT := Schema("", [])

  // ---------- looking paths up ----------

  /** dict.get with an empty default. */
  function Lookup(props: seq<Prop>, key: string): (s: Schema)
    ensures props != [] ==> SizeAll(s.props) < SizeAll(props)
    ensures props == [] ==> s == ABSENT
  {
    if props == [] then ABSENT
    else if props[0].key == key then props[0].value
    else if props[1..] == [] then ABSENT
    else Lookup(props[1..], key)
  }

  /** The walk from the top along keys, and what is left of the tree there. */
  function Walk(props: seq<Prop>, keys: seq<string>): (s: Schema)
    requires keys != []
    ensures props != [] ==> SizeAll(s.props) < SizeAll(props)
    ensures props == [] ==> s == ABSENT
    decreases |keys|
  {
    var prop := Lookup(props, keys[0]);
    if |keys| == 1 then prop else Walk(prop.props, keys[1..])
  }

  function Size(s: Schema): nat {
    1 + SizeAll(s.props)
  }

  function SizeAll(props: seq<Prop>): nat {
    if props == [] then 0 else Size(props[0].value) + SizeAll(props[1..])
  }

  function At(top: seq<Prop>, path: string): Schema {
    Walk(top, Split(path, '.'))
  }

  /** The paths a popped path puts on the list. */
  function Children(top: seq<Prop>, path: string): (paths: seq<string>)
    ensures |paths| == |At(top, path).props|
  {
    var subs := At(top, path).props;
    seq(|subs|, i requires 0 <= i < |subs| => path + "." + subs[i].key)
  }

  function Keys(props: seq<Prop>): (keys: seq<string>)
    ensures |keys| == |props|
  {
    seq(|props|, i requires 0 <= i < |props| => props[i].key)
  }

  // ---------- how much work is left ----------

  /** The number of paths that entries i and later of a property list lead to, themselves included. */
  function Work(props: seq<Prop>, i: nat): nat
    requires i <= |props|
    decreases SizeAll(props), |props| - i
  {
    if i == |props| then 0
    else 1 + Work(Walk(props, Split(props[i].key, '.')).props, 0) + Work(props, i + 1)
  }

  function Pending(top: seq<Prop>, paths: seq<string>): nat {
    if paths == [] then 0 else 1 + Work(At(top, paths[0]).props, 0) + Pending(top, paths[1..])
  }

  lemma {:induction false} PendingAppend(top: seq<Prop>, a: seq<string>, b: seq<string>)
    ensures Pending(top, a + b) == Pending(top, a) + Pending(top, b)
  {
    if a == [] {
      assert a + b == b;
    } else {
      assert (a + b)[1..] == a[1..] + b;
      PendingAppend(top, a[1..], b);
    }
  }

  lemma {:induction false} WalkOn(props: seq<Prop>, a: seq<string>, b: seq<string>)
    requires a != [] && b != []
    ensures Walk(props, a + b) == Walk(Walk(props, a).props, b)
    decreases |a|
  {
    if |a| == 1 {
      assert (a + b)[1..] == b;
    } else {
      assert (a + b)[1..] == a[1..] + b;
      WalkOn(Lookup(props, a[0]).props, a[1..], b);
    }
  }

  /** A popped path's children are worth exactly what the path promised beyond itself. */
  lemma {:induction false} ChildrenWork(top: seq<Prop>, path: string, i: nat)
    requires i <= |At(top, path).props|
    ensures Pending(top, Children(top, path)[i..]) == Work(At(top, path).props, i)
    decreases |At(top, path).props| - i
  {
    var subs, paths := At(top, path).props, Children(top, path);
    if i < |subs| {
      ChildrenWork(top, path, i + 1);
      assert paths[i..][1..] == paths[i + 1..];
      SplitJoined(path, subs[i].key, '.');
      WalkOn(top, Split(path, '.'), Split(subs[i].key, '.'));
    }
  }

  /** One pass of the loop leaves exactly one path less to do, dotted keys or not. */
  lemma PassDescends(top: seq<Prop>, paths: seq<string>)
    requires paths != []
    ensures Pending(top, paths[1..] + Children(top, paths[0])) + 1 == Pending(top, paths)
  {
    PendingAppend(top, paths[1..], Children(top, paths[0]));
    ChildrenWork(top, paths[0], 0);
    assert Children(top, paths[0])[0..] == Children(top, paths[0]);
  }

  /** The paths the loop emits from a given list. */
  function Emitted(top: seq<Prop>, paths: seq<string>): (out: seq<string>)
    ensures |out| == Pending(top, paths)
    decreases Pending(top, paths)
  {
    if paths == [] then []
    else
      PassDescends(top, paths);
      [paths[0]] + Emitted(top, paths[1..] + Children(top, paths[0]))
  }

  // ---------- the loop ----------

  datatype Descriptor = Descriptor(path: string, displayName: string, xDescriptors: seq<string>, description: string)

  /** What descriptorMap has: display names for some paths and x-descriptors for some paths. */
  datatype Known = Known(displayNames: map<string, string>, xDescriptors: map<string, seq<string>>)

  function LastKey(path: string): string {
    var keys := Split(path, '.');
    keys[|keys| - 1]
  }

  /** A known display name replaces the last key. */
  function DisplayName(known: Known, path: string): string {
    if path in known.displayNames then known.displayNames[path] else LastKey(path)
  }

  function XDescriptors(known: Known, path: string): seq<string> {
    if path in known.xDescriptors then known.xDescriptors[path] else []
  }

  function Describe(top: seq<Prop>, known: Known, path: string): Descriptor {
    Descriptor(path, DisplayName(known, path), XDescriptors(known, path), At(top, path).description)
  }

  /** The display name that is listed for the path, or else what follows its last dot. */
  lemma DisplayNameExactly(known: Known, front: string, key: string)
    requires '.' !in key
    ensures DisplayName(known, key) == if key in known.displayNames then known.displayNames[key] else key
    ensures var path := front + "." + key;
      DisplayName(known, path) == if path in known.displayNames then known.displayNames[path] else key
  {
    SplitFree(key, '.');
    SplitJoined(front, key, '.');
  }

  /** The inner loop over the keys of one path. */
  method FindProperty(top: seq<Prop>, keys: seq<string>) returns (prop: Schema)
    requires keys != []
    ensures prop == Walk(top, keys)
  {
    prop := ABSENT;
    var subprops := top;
    for i := 0 to |keys|
      invariant i < |keys| ==> Walk(subprops, keys[i..]) == Walk(top, keys)
      invariant i == |keys| ==> prop == Walk(top, keys)
    {
      prop := Lookup(subprops, keys[i]);
      subprops := prop.props;
      assert i + 1 < |keys| ==> keys[i..][1..] == keys[i + 1..];
    }
  }

  /** The loop that appends the sub-properties of a popped path. */
  method Enqueue(specpaths: seq<string>, path: string, subprops: seq<Prop>) returns (more: seq<string>)
    ensures more == specpaths + seq(|subprops|, i requires 0 <= i < |subprops| => path + "." + subprops[i].key)
  {
    more := specpaths;
    for i := 0 to |subprops|
      invariant more == specpaths + seq(i, k requires 0 <= k < i => path + "." + subprops[k].key)
    {
      more := more + [path + "." + subprops[i].key];
    }
  }

  method LoadDescriptors(specprops: seq<Prop>, known: Known) returns (specdescriptors: seq<Descriptor>)
    ensures |specdescriptors| == Work(specprops, 0)
    ensures |specdescriptors| == |Emitted(specprops, Keys(specprops))|
    ensures forall i :: 0 <= i < |specdescriptors| ==>
      specdescriptors[i] == Describe(specprops, known, Emitted(specprops, Keys(specprops))[i])
  {
    specdescriptors := [];
    var specpaths := Keys(specprops);
    ghost var all := Emitted(specprops, specpaths);
    while |specpaths| > 0
      invariant |specdescriptors| <= |all| && all[|specdescriptors|..] == Emitted(specprops, specpaths)
      invariant forall i :: 0 <= i < |specdescriptors| ==> specdescriptors[i] == Describe(specprops, known, all[i])
      decreases Pending(specprops, specpaths)
    {
      ghost var rest := Emitted(specprops, specpaths);
      var path := specpaths[0];
      PassDescends(specprops, specpaths);
      specpaths := specpaths[1..];
      var keys := Split(path, '.');
      var prop := FindProperty(specprops, keys);
      specpaths := Enqueue(specpaths, path, prop.props);
      specdescriptors := specdescriptors +
        [Descriptor(path, DisplayName(known, path), XDescriptors(known, path), prop.description)];
      assert rest[1..] == Emitted(specprops, specpaths);
    }
    TopWork(specprops, 0);
    assert Keys(specprops)[0..] == Keys(specprops);
  }

  lemma {:induction false} TopWork(top: seq<Prop>, i: nat)
    requires i <= |top|
    ensures Pending(top, Keys(top)[i..]) == Work(top, i)
    decreases |top| - i
  {
    if i < |top| {
      TopWork(top, i + 1);
      assert Keys(top)[i..][1..] == Keys(top)[i + 1..];
    }
  }

  // ---------- exactly once, shallower first ----------

  ghost predicate HasKey(props: seq<Prop>, key: string) {
    exists i :: 0 <= i < |props| && props[i].key == key
  }

  /** The chains of keys that lead from a property list to a property. */
  ghost predicate Reachable(props: seq<Prop>, keys: seq<string>)
    decreases |keys|
  {
    && keys != []
    && HasKey(props, keys[0])
    && (|keys| == 1 || Reachable(Lookup(props, keys[0]).props, keys[1..]))
  }

  /** No key holds a dot, and, as in any dict, no two keys of one level are equal. */
  ghost predicate Tidy(props: seq<Prop>) {
    && (forall i :: 0 <= i < |props| ==> '.' !in props[i].key && Tidy(props[i].value.props))
    && (forall i, j :: 0 <= i < j < |props| ==> props[i].key != props[j].key)
  }

  lemma {:induction false} LookupFinds(props: seq<Prop>, key: string) returns (i: int)
    ensures -1 <= i < |props|
    ensures i < 0 ==> Lookup(props, key) == ABSENT && !HasKey(props, key)
    ensures i >= 0 ==> props[i].key == key && props[i].value == Lookup(props, key)
  {
    if props == [] {
      i := -1;
    } else if props[0].key == key {
      i := 0;
    } else {
      i := LookupFinds(props[1..], key);
      if i < 0 {
        forall j | 0 <= j < |props| ensures props[j].key != key {
          assert j > 0 ==> props[j] == props[1..][j - 1];
        }
      } else {
        i := i + 1;
      }
    }
  }

  /** Keys that lead to no property find one without description and without properties of its own. */
  lemma {:induction false} NothingThere(props: seq<Prop>, keys: seq<string>)
    requires keys != [] && !Reachable(props, keys)
    ensures Walk(props, keys) == Schema("", [])
    decreases |keys|
  {
    var i := LookupFinds(props, keys[0]);
    if |keys| > 1 {
      NothingThere(Lookup(props, keys[0]).props, keys[1..]);
    }
  }

  lemma {:induction false} WalkTidy(props: seq<Prop>, keys: seq<string>)
    requires Tidy(props) && keys != []
    ensures Tidy(Walk(props, keys).props)
    decreases |keys|
  {
    var i := LookupFinds(props, keys[0]);
    if |keys| > 1 {
      WalkTidy(Lookup(props, keys[0]).props, keys[1..]);
    }
  }

  lemma {:induction false} ReachableStep(props: seq<Prop>, keys: seq<string>, key: string)
    requires keys != []
    ensures Reachable(props, keys + [key]) <==> Reachable(props, keys) && HasKey(Walk(props, keys).props, key)
    decreases |keys|
  {
    var longer := keys + [key];
    if |keys| == 1 {
      assert longer[1..] == [key];
    } else {
      assert longer[1..] == keys[1..] + [key];
      ReachableStep(Lookup(props, keys[0]).props, keys[1..], key);
    }
  }

  lemma {:induction false} ReachablePrefix(props: seq<Prop>, keys: seq<string>, n: nat)
    requires Reachable(props, keys) && 0 < n <= |keys|
    ensures Reachable(props, keys[..n])
    ensures n < |keys| ==> HasKey(Walk(props, keys[..n]).props, keys[n])
    decreases |keys| - n
  {
    if n == |keys| {
      assert keys[..n] == keys;
    } else {
      ReachablePrefix(props, keys, n + 1);
      assert keys[..n + 1] == keys[..n] + [keys[n]];
      ReachableStep(props, keys[..n], keys[n]);
    }
  }

  lemma {:induction false} ReachableFree(props: seq<Prop>, keys: seq<string>)
    requires Tidy(props) && Reachable(props, keys)
    ensures AllFree(keys, '.')
    decreases |keys|
  {
    var i := LookupFinds(props, keys[0]);
    if |keys| > 1 {
      ReachableFree(Lookup(props, keys[0]).props, keys[1..]);
      assert keys == [keys[0]] + keys[1..];
    }
  }

  function KeysOf(path: string): (keys: seq<string>)
    ensures keys != []
  {
    Split(path, '.')
  }

  lemma KeysInjective(p: string, q: string)
    requires KeysOf(p) == KeysOf(q)
    ensures p == q
  {
    JoinSplit(p, '.');
    JoinSplit(q, '.');
  }

  lemma ChildKeys(top: seq<Prop>, path: string, i: nat)
    requires Tidy(top) && i < |At(top, path).props|
    ensures KeysOf(Children(top, path)[i]) == KeysOf(path) + [At(top, path).props[i].key]
  {
    WalkTidy(top, KeysOf(path));
    var key := At(top, path).props[i].key;
    SplitJoined(path, key, '.');
    SplitFree(key, '.');
  }

  /**
   * The list as it would be if nothing were ever popped: the first n paths have been emitted, the rest wait.
   * A path below a waiting one is still to come.
   */
  ghost predicate Covered(all: seq<string>, n: nat, path: string) {
    exists i :: 0 <= i < |all| && (all[i] == path || (n <= i && KeysOf(all[i]) <= KeysOf(path)))
  }

  ghost predicate ParentBefore(all: seq<string>, n: nat, i: nat)
    requires i < |all|
  {
    var keys := KeysOf(all[i]);
    |keys| > 1 ==> exists j :: 0 <= j < n && j < |all| && KeysOf(all[j]) == keys[..|keys| - 1]
  }

  ghost predicate AllParentsBefore(all: seq<string>, n: nat) {
    forall i :: 0 <= i < |all| ==> ParentBefore(all, n, i)
  }

  function Depth(path: string): nat {
    |KeysOf(path)|
  }

  ghost predicate Ordered(all: seq<string>) {
    forall i, j :: 0 <= i < j < |all| ==> Depth(all[i]) <= Depth(all[j])
  }

  ghost predicate Shallow(all: seq<string>, n: nat) {
    forall i :: 0 <= i < |all| && n < |all| ==> Depth(all[i]) <= Depth(all[n]) + 1
  }

  ghost predicate AllDifferent(all: seq<string>) {
    forall i, j :: 0 <= i < j < |all| ==> all[i] != all[j]
  }

  ghost predicate Leads(top: seq<Prop>, path: string) {
    Reachable(top, KeysOf(path))
  }

  ghost predicate AllLead(top: seq<Prop>, all: seq<string>) {
    forall i :: 0 <= i < |all| ==> Leads(top, all[i])
  }

  ghost predicate CoversAll(top: seq<Prop>, all: seq<string>, n: nat) {
    forall p :: Leads(top, p) ==> Covered(all, n, p)
  }

  ghost predicate Progress(top: seq<Prop>, all: seq<string>, n: nat) {
    && n <= |all|
    && AllLead(top, all)
    && CoversAll(top, all, n)
    && AllDifferent(all)
    && AllParentsBefore(all, n)
    && Ordered(all)
    && Shallow(all, n)
  }

  lemma StepLeads(top: seq<Prop>, path: string, i: nat)
    requires Tidy(top) && Leads(top, path) && i < |Children(top, path)|
    ensures Leads(top, Children(top, path)[i])
  {
    ChildKeys(top, path, i);
    var key := At(top, path).props[i].key;
    assert HasKey(Walk(top, KeysOf(path)).props, key);
    ReachableStep(top, KeysOf(path), key);
  }

  /** A path strictly below x lies at or below one of the children of x. */
  lemma BelowChild(top: seq<Prop>, x: string, p: string) returns (k: nat)
    requires Tidy(top) && Leads(top, p) && KeysOf(x) < KeysOf(p)
    ensures k < |Children(top, x)| && KeysOf(Children(top, x)[k]) <= KeysOf(p)
  {
    var keys, n := KeysOf(p), |KeysOf(x)|;
    ReachablePrefix(top, keys, n);
    assert keys[..n] == KeysOf(x);
    k :| 0 <= k < |At(top, x).props| && At(top, x).props[k].key == keys[n];
    ChildKeys(top, x, k);
  }

  lemma StepCovers(top: seq<Prop>, all: seq<string>, n: nat, kids: seq<string>, p: string)
    requires Tidy(top) && n < |all| && kids == Children(top, all[n])
    requires Leads(top, p) && Covered(all, n, p)
    ensures Covered(all + kids, n + 1, p)
  {
    var next := all + kids;
    var i :| 0 <= i < |all| && (all[i] == p || (n <= i && KeysOf(all[i]) <= KeysOf(p)));
    assert next[i] == all[i];
    if all[i] != p && i == n {
      if KeysOf(all[n]) == KeysOf(p) {
        KeysInjective(all[n], p);
      } else {
        var k := BelowChild(top, all[n], p);
        assert next[|all| + k] == kids[k];
      }
    }
  }

  lemma StepCoversAll(top: seq<Prop>, all: seq<string>, n: nat, kids: seq<string>)
    requires Tidy(top) && n < |all| && kids == Children(top, all[n])
    requires CoversAll(top, all, n)
    ensures CoversAll(top, all + kids, n + 1)
  {
    forall p | Leads(top, p) ensures Covered(all + kids, n + 1, p) {
      StepCovers(top, all, n, kids, p);
    }
  }

  lemma StepFresh(top: seq<Prop>, all: seq<string>, n: nat, i: nat, k: nat)
    requires Tidy(top) && n < |all| && AllDifferent(all) && AllParentsBefore(all, n)
    requires i < |all| && k < |Children(top, all[n])|
    ensures all[i] != Children(top, all[n])[k]
  {
    ChildKeys(top, all[n], k);
    if all[i] == Children(top, all[n])[k] {
      var keys := KeysOf(all[i]);
      assert ParentBefore(all, n, i);
      var j :| 0 <= j < n && j < |all| && KeysOf(all[j]) == keys[..|keys| - 1];
      assert keys[..|keys| - 1] == KeysOf(all[n]);
      KeysInjective(all[j], all[n]);
      assert false;
    }
  }

  lemma ChildrenDifferent(top: seq<Prop>, path: string)
    requires Tidy(top)
    ensures AllDifferent(Children(top, path))
  {
    var kids, props := Children(top, path), At(top, path).props;
    WalkTidy(top, KeysOf(path));
    forall i, j | 0 <= i < j < |kids| ensures kids[i] != kids[j] {
      var pre := path + ".";
      assert kids[i] == pre + props[i].key && kids[j] == pre + props[j].key;
      assert kids[i][|pre|..] == props[i].key && kids[j][|pre|..] == props[j].key;
    }
  }

  lemma StepDifferent(top: seq<Prop>, all: seq<string>, n: nat, kids: seq<string>)
    requires Tidy(top) && n < |all| && kids == Children(top, all[n])
    requires AllDifferent(all) && AllParentsBefore(all, n)
    ensures AllDifferent(all + kids)
  {
    var next := all + kids;
    ChildrenDifferent(top, all[n]);
    forall i, j | 0 <= i < j < |next| ensures next[i] != next[j] {
      if i < |all| <= j {
        StepFresh(top, all, n, i, j - |all|);
      }
    }
  }

  lemma StepParent(top: seq<Prop>, all: seq<string>, n: nat, kids: seq<string>, i: nat)
    requires Tidy(top) && n < |all| && kids == Children(top, all[n])
    requires AllParentsBefore(all, n) && i < |all + kids|
    ensures ParentBefore(all + kids, n + 1, i)
  {
    var next := all + kids;
    var keys := KeysOf(next[i]);
    if i < |all| {
      assert ParentBefore(all, n, i);
      if |keys| > 1 {
        var j :| 0 <= j < n && j < |all| && KeysOf(all[j]) == keys[..|keys| - 1];
        assert next[j] == all[j];
      }
    } else {
      ChildKeys(top, all[n], i - |all|);
      assert keys[..|keys| - 1] == KeysOf(all[n]);
      assert next[n] == all[n];
    }
  }

  lemma StepParents(top: seq<Prop>, all: seq<string>, n: nat, kids: seq<string>, m: nat)
    requires Tidy(top) && n < |all| && kids == Children(top, all[n]) && m == n + 1
    requires AllParentsBefore(all, n)
    ensures AllParentsBefore(all + kids, m)
  {
    var next := all + kids;
    forall i | 0 <= i < |next| ensures ParentBefore(next, m, i) {
      StepParent(top, all, n, kids, i);
    }
  }

  lemma StepLayers(top: seq<Prop>, all: seq<string>, n: nat, kids: seq<string>)
    requires Tidy(top) && n < |all| && kids == Children(top, all[n])
    requires Ordered(all) && Shallow(all, n)
    ensures Ordered(all + kids) && Shallow(all + kids, n + 1)
  {
    var next, d := all + kids, Depth(all[n]);
    forall k | 0 <= k < |kids| ensures Depth(kids[k]) == d + 1 {
      ChildKeys(top, all[n], k);
    }
    assert forall i :: 0 <= i < |next| ==> Depth(next[i]) <= d + 1;
  }

  lemma StepKeepsProgress(top: seq<Prop>, all: seq<string>, n: nat, kids: seq<string>)
    requires Tidy(top) && Progress(top, all, n) && n < |all| && kids == Children(top, all[n])
    ensures Progress(top, all + kids, n + 1)
  {
    StepCoversAll(top, all, n, kids);
    StepDifferent(top, all, n, kids);
    StepParents(top, all, n, kids, n + 1);
    StepLayers(top, all, n, kids);
    var next := all + kids;
    forall i | 0 <= i < |next| ensures Leads(top, next[i]) {
      if i >= |all| {
        StepLeads(top, all[n], i - |all|);
      }
    }
  }

  /** Moving the head of the waiting part over, and appending to it. */
  lemma Shifted<T>(all: seq<T>, n: nat, more: seq<T>)
    requires n < |all|
    ensures all[n..] != [] && all[n..][0] == all[n]
    ensures (all + more)[n + 1..] == all[n..][1..] + more
    ensures (all + more)[..n + 1] == all[..n] + [all[n]]
  {
  }

  lemma PassMoves(top: seq<Prop>, all: seq<string>, n: nat, next: seq<string>, waiting: seq<string>)
    requires n < |all| && next == all + Children(top, all[n]) && waiting == next[n + 1..]
    ensures all[..n] + Emitted(top, all[n..]) == next[..n + 1] + Emitted(top, waiting)
    ensures Pending(top, waiting) < Pending(top, all[n..])
  {
    Shifted(all, n, Children(top, all[n]));
    PassOf(top, all[n..], all[n], waiting);
    Regrouped(all[..n], [all[n]], Emitted(top, waiting));
  }

  lemma PassOf(top: seq<Prop>, paths: seq<string>, x: string, waiting: seq<string>)
    requires paths != [] && x == paths[0] && waiting == paths[1..] + Children(top, x)
    ensures Emitted(top, paths) == [x] + Emitted(top, waiting)
    ensures Pending(top, waiting) < Pending(top, paths)
  {
    PassDescends(top, paths);
  }

  lemma Regrouped<T>(a: seq<T>, b: seq<T>, c: seq<T>)
    ensures a + (b + c) == a + b + c
  {
  }

  lemma {:induction false} EmissionKeepsProgress(top: seq<Prop>, all: seq<string>, n: nat, out: seq<string>)
    requires Tidy(top) && Progress(top, all, n)
    requires out == all[..n] + Emitted(top, all[n..])
    ensures Progress(top, out, |out|)
    decreases Pending(top, all[n..])
  {
    if n == |all| {
      assert all[n..] == [] && all[..n] == all;
      assert out == all;
    } else {
      StepKeepsProgress(top, all, n, Children(top, all[n]));
      PassMoves(top, all, n, all + Children(top, all[n]), (all + Children(top, all[n]))[n + 1..]);
      EmissionKeepsProgress(top, all + Children(top, all[n]), n + 1, out);
    }
  }

  lemma StartProgress(top: seq<Prop>, all: seq<string>)
    requires Tidy(top) && all == Keys(top)
    ensures Progress(top, all, 0)
  {
    forall i | 0 <= i < |all| ensures KeysOf(all[i]) == [top[i].key] && Leads(top, all[i]) {
      SplitFree(top[i].key, '.');
    }
    forall p | Leads(top, p) ensures Covered(all, 0, p) {
      var i :| 0 <= i < |top| && top[i].key == KeysOf(p)[0];
      assert KeysOf(all[i]) <= KeysOf(p);
    }
  }

  lemma EmissionFinishes(top: seq<Prop>, out: seq<string>)
    requires Tidy(top) && out == Emitted(top, Keys(top))
    ensures Progress(top, out, |out|)
  {
    var all := Keys(top);
    assert out == all[..0] + Emitted(top, all[0..]) by {
      assert all[0..] == all && all[..0] == [];
    }
    StartProgress(top, all);
    EmissionKeepsProgress(top, all, 0, out);
  }

  lemma EmittedIffLeads(top: seq<Prop>, out: seq<string>, p: string)
    requires AllLead(top, out) && CoversAll(top, out, |out|)
    ensures p in out <==> Leads(top, p)
  {
    if Leads(top, p) {
      assert Covered(out, |out|, p);
    }
  }

  /**
   * On a schema tree without dots in its keys the loop emits a path exactly when its keys lead to a property,
   * each path once, and no path after a deeper one.
   */
  lemma EmitsExactlyOnce(top: seq<Prop>, out: seq<string>)
    requires Tidy(top) && out == Emitted(top, Keys(top))
    ensures forall p :: p in out <==> Reachable(top, KeysOf(p))
    ensures forall i, j :: 0 <= i < j < |out| ==> out[i] != out[j]
    ensures forall i, j :: 0 <= i < j < |out| ==> Depth(out[i]) <= Depth(out[j])
  {
    EmissionFinishes(top, out);
    forall p ensures p in out <==> Leads(top, p) {
      EmittedIffLeads(top, out, p);
    }
  }

  /**
    The statement for any tree: a path is emitted if and only if its keys lead to a property, and no path is emitted
    twice.
  */
  ghost predicate ExactlyOnce(top: seq<Prop>, out: seq<string>) {
    (forall p :: p in out <==> Reachable(top, KeysOf(p))) && AllDifferent(out)
  }

  /**
    Chains of keys and paths correspond: every chain that leads to a property is the one its joined path splits into.
  */
  lemma EveryChainEmitted(top: seq<Prop>, keys: seq<string>)
    requires Tidy(top) && Reachable(top, keys)
    ensures KeysOf(Join(keys, '.')) == keys && Join(keys, '.') in Emitted(top, Keys(top))
  {
    ReachableFree(top, keys);
    SplitJoin(keys, '.');
    EmitsExactlyOnce(top, Emitted(top, Keys(top)));
  }

  // ---------- the condition on dots is exact ----------

  ghost predicate DotFree(props: seq<Prop>) {
    forall i :: 0 <= i < |props| ==> '.' !in props[i].key && DotFree(props[i].value.props)
  }

  /** As in any dict, no two keys of one level are equal. */
  ghost predicate DistinctKeys(props: seq<Prop>) {
    && (forall i :: 0 <= i < |props| ==> DistinctKeys(props[i].value.props))
    && (forall i, j :: 0 <= i < j < |props| ==> props[i].key != props[j].key)
  }

  lemma {:induction false} TidyIsBoth(props: seq<Prop>)
    ensures Tidy(props) <==> DotFree(props) && DistinctKeys(props)
  {
    forall i | 0 <= i < |props|
      ensures Tidy(props[i].value.props) <==> DotFree(props[i].value.props) && DistinctKeys(props[i].value.props)
    {
      TidyIsBoth(props[i].value.props);
    }
  }

  /** Where the blocks of children lie: those of the i-th path come after the top keys and all earlier blocks. */
  function Start(top: seq<Prop>, all: seq<string>, i: nat): nat
    requires i <= |all|
  {
    if i == 0 then |top| else Start(top, all, i - 1) + |Children(top, all[i - 1])|
  }

  ghost predicate Block(top: seq<Prop>, all: seq<string>, i: nat)
    requires i < |all|
  {
    var kids, from := Children(top, all[i]), Start(top, all, i);
    from + |kids| <= |all| && all[from..from + |kids|] == kids
  }

  ghost predicate Queued(top: seq<Prop>, all: seq<string>, n: nat) {
    && n <= |all| && Keys(top) <= all
    && |all| == Start(top, all, n)
    && (forall i :: 0 <= i < n ==> Block(top, all, i))
  }

  lemma {:induction false} StartSame(top: seq<Prop>, all: seq<string>, next: seq<string>, i: nat)
    requires all <= next && i <= |all|
    ensures Start(top, next, i) == Start(top, all, i)
  {
    if i > 0 {
      StartSame(top, all, next, i - 1);
    }
  }

  lemma {:induction false} StartGrows(top: seq<Prop>, all: seq<string>, i: nat, j: nat)
    requires i < j <= |all|
    ensures |top| <= Start(top, all, i)
    ensures Start(top, all, i) + |Children(top, all[i])| <= Start(top, all, j)
  {
    if i > 0 {
      StartGrows(top, all, i - 1, i);
    }
    if i + 1 < j {
      StartGrows(top, all, i, j - 1);
    }
  }

  lemma BlockStays(top: seq<Prop>, all: seq<string>, next: seq<string>, i: nat)
    requires all <= next && i < |all| && Block(top, all, i)
    ensures Block(top, next, i)
  {
    StartSame(top, all, next, i);
    var from, kids := Start(top, all, i), Children(top, all[i]);
    assert next[from..from + |kids|] == all[from..from + |kids|];
  }

  lemma QueuedStep(top: seq<Prop>, all: seq<string>, n: nat, next: seq<string>)
    requires Queued(top, all, n) && n < |all| && next == all + Children(top, all[n])
    ensures Queued(top, next, n + 1)
  {
    StartSame(top, all, next, n);
    forall i | 0 <= i < n + 1 ensures Block(top, next, i) {
      if i < n {
        BlockStays(top, all, next, i);
      }
    }
  }

  lemma {:induction false} QueuedToTheEnd(top: seq<Prop>, all: seq<string>, n: nat, out: seq<string>)
    requires Queued(top, all, n) && out == all[..n] + Emitted(top, all[n..])
    ensures Queued(top, out, |out|)
    decreases Pending(top, all[n..])
  {
    if n == |all| {
      assert all[n..] == [] && all[..n] == all;
      assert out == all;
    } else {
      var next := all + Children(top, all[n]);
      QueuedStep(top, all, n, next);
      PassMoves(top, all, n, next, next[n + 1..]);
      QueuedToTheEnd(top, next, n + 1, out);
    }
  }

  /** The emitted paths are the top keys, and then the children of each emitted path in turn. */
  lemma EmittedInBlocks(top: seq<Prop>, out: seq<string>)
    requires out == Emitted(top, Keys(top))
    ensures Queued(top, out, |out|)
  {
    var all := Keys(top);
    assert out == all[..0] + Emitted(top, all[0..]) by {
      assert all[0..] == all && all[..0] == [];
    }
    assert Queued(top, all, 0);
    QueuedToTheEnd(top, all, 0, out);
  }

  lemma BlockAt(top: seq<Prop>, out: seq<string>, i: nat, k: nat)
    requires Queued(top, out, |out|) && i < |out| && k < |Children(top, out[i])|
    ensures |top| <= Start(top, out, i) && Start(top, out, i) + k < |out|
    ensures out[Start(top, out, i) + k] == Children(top, out[i])[k]
  {
    var from, kids := Start(top, out, i), Children(top, out[i]);
    StartGrows(top, out, i, i + 1);
    assert Block(top, out, i);
    assert out[from..from + |kids|][k] == kids[k];
  }

  /** A path that is a child of two emitted paths, or of one and a top key, is emitted twice. */
  lemma TwoParents(top: seq<Prop>, out: seq<string>, i: nat, k: nat, j: nat, l: nat)
    requires Queued(top, out, |out|) && i < j < |out|
    requires k < |Children(top, out[i])| && l < |Children(top, out[j])|
    requires Children(top, out[i])[k] == Children(top, out[j])[l]
    ensures !AllDifferent(out)
  {
    BlockAt(top, out, i, k);
    BlockAt(top, out, j, l);
    StartGrows(top, out, i, j);
  }

  lemma TopAndParent(top: seq<Prop>, out: seq<string>, k: nat, j: nat, l: nat)
    requires Queued(top, out, |out|) && k < |top| && j < |out|
    requires l < |Children(top, out[j])| && Keys(top)[k] == Children(top, out[j])[l]
    ensures !AllDifferent(out)
  {
    BlockAt(top, out, j, l);
    assert out[k] == Keys(top)[k];
  }

  lemma {:induction false} JoinMore(keys: seq<string>, last: string)
    requires keys != []
    ensures Join(keys + [last], '.') == Join(keys, '.') + "." + last
  {
    var more := keys + [last];
    if |keys| == 1 {
      assert more[1..] == [last];
    } else {
      assert more[1..] == keys[1..] + [last];
      JoinMore(keys[1..], last);
      assert keys[0] + ['.'] + (Join(keys[1..], '.') + "." + last) ==
        keys[0] + ['.'] + Join(keys[1..], '.') + "." + last;
    }
  }

  /** The path made of all but the last key. */
  lemma ParentPath(path: string) returns (parent: string, last: string)
    requires |KeysOf(path)| > 1
    ensures KeysOf(parent) == KeysOf(path)[..|KeysOf(path)| - 1] && last == KeysOf(path)[|KeysOf(path)| - 1]
    ensures path == parent + "." + last
  {
    var keys := KeysOf(path);
    var front := keys[..|keys| - 1];
    last := keys[|keys| - 1];
    parent := Join(front, '.');
    JoinSplit(path, '.');
    assert AllFree(front, '.') by {
      assert forall i :: 0 <= i < |front| ==> front[i] == keys[i];
    }
    SplitJoin(front, '.');
    assert front + [last] == keys;
    JoinMore(front, last);
  }

  /** If the statement holds, an emitted path of several keys is the child of the emitted path of all but the last. */
  lemma EmittedAsChild(top: seq<Prop>, out: seq<string>, path: string) returns (j: nat, l: nat)
    requires ExactlyOnce(top, out) && path in out && |KeysOf(path)| > 1
    ensures j < |out| && KeysOf(out[j]) == KeysOf(path)[..|KeysOf(path)| - 1]
    ensures l < |Children(top, out[j])| && Children(top, out[j])[l] == path
  {
    var keys := KeysOf(path);
    var n := |keys| - 1;
    var parent, last := ParentPath(path);
    ReachablePrefix(top, keys, n);
    assert parent in out;
    j :| 0 <= j < |out| && out[j] == parent;
    l :| 0 <= l < |At(top, parent).props| && At(top, parent).props[l].key == last;
  }

  /** A dotted key, below a chain of keys without dots. */
  lemma {:induction false} FindDotted(props: seq<Prop>) returns (keys: seq<string>, key: string)
    requires DistinctKeys(props) && !DotFree(props)
    ensures '.' in key && AllFree(keys, '.')
    ensures keys == [] ==> HasKey(props, key)
    ensures keys != [] ==> Reachable(props, keys) && HasKey(Walk(props, keys).props, key)
  {
    if i :| 0 <= i < |props| && '.' in props[i].key {
      keys, key := [], props[i].key;
    } else {
      var i :| 0 <= i < |props| && !DotFree(props[i].value.props);
      var rest, dotted := FindDotted(props[i].value.props);
      var j := LookupFinds(props, props[i].key);
      assert HasKey(props, props[i].key) && j == i;
      keys, key := [props[i].key] + rest, dotted;
      assert rest != [] ==> keys[1..] == rest;
    }
  }

  /** The child under a dotted key is emitted without leading to a property, or is emitted twice. */
  lemma DottedChildBreaks(top: seq<Prop>, out: seq<string>, i: nat, k: nat)
    requires Queued(top, out, |out|)
    requires i < |out| && k < |Children(top, out[i])| && '.' in At(top, out[i]).props[k].key
    ensures !ExactlyOnce(top, out)
  {
    var key, path := At(top, out[i]).props[k].key, Children(top, out[i])[k];
    BlockAt(top, out, i, k);
    SplitJoined(out[i], key, '.');
    SplitMore(key, '.');
    assert KeysOf(path) == KeysOf(out[i]) + KeysOf(key) && |KeysOf(key)| > 1;
    if ExactlyOnce(top, out) {
      var j, l := EmittedAsChild(top, out, path);
      assert |KeysOf(out[j])| > |KeysOf(out[i])|;
      if i < j {
        TwoParents(top, out, i, k, j, l);
      } else {
        TwoParents(top, out, j, l, i, k);
      }
    }
  }

  lemma DottedTopBreaks(top: seq<Prop>, out: seq<string>, k: nat)
    requires Queued(top, out, |out|)
    requires k < |top| && '.' in top[k].key
    ensures !ExactlyOnce(top, out)
  {
    var path := Keys(top)[k];
    assert out[k] == path;
    SplitMore(path, '.');
    if ExactlyOnce(top, out) {
      var j, l := EmittedAsChild(top, out, path);
      TopAndParent(top, out, k, j, l);
    }
  }

  lemma DottedBreaks(top: seq<Prop>, out: seq<string>)
    requires DistinctKeys(top) && !DotFree(top) && out == Emitted(top, Keys(top))
    ensures !ExactlyOnce(top, out)
  {
    var keys, key := FindDotted(top);
    EmittedInBlocks(top, out);
    if keys == [] {
      var k :| 0 <= k < |top| && top[k].key == key;
      DottedTopBreaks(top, out, k);
    } else if ExactlyOnce(top, out) {
      SplitJoin(keys, '.');
      assert Join(keys, '.') in out;
      var i :| 0 <= i < |out| && out[i] == Join(keys, '.');
      var k :| 0 <= k < |At(top, out[i]).props| && At(top, out[i]).props[k].key == key;
      DottedChildBreaks(top, out, i, k);
    }
  }

  /** For dicts, dots in keys are exactly what makes the statement false: at any level, one is enough. */
  lemma ExactlyOnceExactly(top: seq<Prop>, out: seq<string>)
    requires DistinctKeys(top) && out == Emitted(top, Keys(top))
    ensures ExactlyOnce(top, out) <==> DotFree(top)
  {
    TidyIsBoth(top);
    if DotFree(top) {
      EmitsExactlyOnce(top, out);
    } else {
      DottedBreaks(top, out);
    }
  }

  /** An input: "a.b" is looked up as b below a, so its own properties stay hidden. */
  lemma DottedKeyHidesChildren(c: Schema)
    ensures var top := [Prop("a.b", Schema("", [Prop("c", c)]))];
      Reachable(top, ["a.b", "c"]) && Emitted(top, Keys(top)) == ["a.b"]
  {
    var inner := [Prop("c", c)];
    var top := [Prop("a.b", Schema("", inner))];
    assert inner[0].key == "c" && top[0].key == "a.b";
    assert ["a.b", "c"][1..] == ["c"];
    assert Split("b", '.') == ["b"] by { SplitFree("b", '.'); }
    assert "a" + ['.'] + "b" == "a.b";
    SplitCons("a", "b", '.');
    assert Split("a.b", '.') == ["a", "b"];
    assert ["a", "b"][1..] == ["b"];
    assert Keys(top) == ["a.b"];
    assert At(top, "a.b") == ABSENT;
    assert Children(top, "a.b") == [];
    PassDescends(top, ["a.b"]);
    assert ["a.b"][1..] + [] == [];
    assert Emitted(top, []) == [];
  }
}
