/** The decoded document tree and the flattening rule shared by the JSON and
    YAML providers: a depth-first walk that joins keys into dotted paths and
    writes every node it visits to `found` (the path is awaited) or
    `unknown` (it is not), except an unawaited mapping, which it descends
    into. Paths can collide, and then the last write to a path stays.

    The walk is specified twice. `Walk` gives the exact sequence of writes the
    source performs for one iteration order of each mapping (an `Obj` lists
    its entries in that order); `Reached` says which (path, node) pairs the
    walk visits, independently of any order. `WalkEmits` connects the two,
    and `FlattenFound` / `FlattenUnknown` describe the resulting maps in
    order-independent terms. */
module Document {

  /** A decoded value: JSON/YAML null, a scalar (kept as its literal text), an
      array, or a mapping whose entries are listed in one iteration order. */
  datatype Node = Null | Scalar(text: string) | Arr(items: seq<Node>) | Obj(entries: seq<(string, Node)>)

  /** What a provider hands back: matched and unmatched flat key-value pairs. */
  datatype Provided = Provided(found: map<string, string>, unknown: map<string, string>)

  /** `awaited[p]` on a Go `map[string]bool`: a missing key reads as false. */
  predicate Awaited(awaited: map<string, bool>, path: string) {
    path in awaited && awaited[path]
  }

  /** The dotted path of key `key` below `prefix` (the top level has prefix ""). */
  function Join(prefix: string, key: string): string {
    if prefix == "" then key else prefix + "." + key
  }

  datatype Target = Found | Unknown

  /** One write of the walk: `target[path] = conv(node)`. */
  datatype Emission = Emission(target: Target, path: string, node: Node)

  /** Whether a node is passed over without any write (JSON skips nulls). */
  predicate Skipped(skipNull: bool, v: Node) {
    skipNull && v.Null?
  }

  /** Whether the walk goes on into the node at `path`: only an unawaited mapping. */
  predicate Descends(awaited: map<string, bool>, path: string, v: Node) {
    !Awaited(awaited, path) && v.Obj?
  }

  /** The rule for a node the walk visits: nothing for a skipped node, `found`
      for an awaited path (whatever the node is), otherwise `unknown` for a
      node that is not a mapping. */
  predicate Emits(skipNull: bool, awaited: map<string, bool>, e: Emission) {
    && !Skipped(skipNull, e.node)
    && if Awaited(awaited, e.path) then e.target == Found
       else e.target == Unknown && !e.node.Obj?
  }

  /** Path `q` lies strictly below path `p`: it starts with `p` and a dot.
      Every path lies below the top level "". */
  predicate Below(p: string, q: string) {
    p == "" || (|q| > |p| && q[..|p| + 1] == p + ".")
  }

  /** A path at or below `Join(prefix, key)` lies below `prefix`. */
  lemma BelowJoin(prefix: string, key: string, es: seq<Emission>)
    requires forall e :: e in es ==> e.path == Join(prefix, key) || Below(Join(prefix, key), e.path)
    ensures forall e :: e in es ==> Below(prefix, e.path)
  {
    if prefix != "" {
      var j := Join(prefix, key);
      assert j[..|prefix| + 1] == prefix + ".";
      forall e | e in es
        ensures Below(prefix, e.path)
      {
        if e.path != j {
          assert e.path[..|prefix| + 1] == e.path[..|j| + 1][..|prefix| + 1];
        }
      }
    }
  }

  /** The writes made for the first `n` entries of mapping `obj` below
      `prefix`; each follows the emission rule. */
  function Walk(skipNull: bool, awaited: map<string, bool>, prefix: string, obj: Node, n: nat): (r: seq<Emission>)
    requires obj.Obj? && n <= |obj.entries|
    ensures forall e :: e in r ==> Emits(skipNull, awaited, e)
    decreases obj, n
  {
    if n == 0 then []
    else
      Walk(skipNull, awaited, prefix, obj, n - 1)
      + Visit(skipNull, awaited, Join(prefix, obj.entries[n - 1].0), obj.entries[n - 1].1)
  }

  /** The writes made for value `v` found at `path`: in the source's order of
      tests, a skipped null, an awaited path, a mapping to descend into, a leaf.
      Each follows the emission rule. */
  function Visit(skipNull: bool, awaited: map<string, bool>, path: string, v: Node): (r: seq<Emission>)
    ensures forall e :: e in r ==> Emits(skipNull, awaited, e)
    decreases v, if v.Obj? then |v.entries| + 1 else 0
  {
    if Skipped(skipNull, v) then []
    else if Awaited(awaited, path) then [Emission(Found, path, v)]
    else if v.Obj? then Walk(skipNull, awaited, path, v, |v.entries|)
    else [Emission(Unknown, path, v)]
  }

  /** Every path the walk of a mapping writes is below its prefix, and is
      the joined path of one of the entries walked (a key `k` at the top level
      is written as `k`, below a prefix `p` as `p.k`) or lies below that path. */
  lemma {:induction false} WalkPaths(skipNull: bool, awaited: map<string, bool>, prefix: string, obj: Node, n: nat)
    requires obj.Obj? && n <= |obj.entries|
    ensures forall e :: e in Walk(skipNull, awaited, prefix, obj, n) ==> Below(prefix, e.path)
    ensures forall e :: e in Walk(skipNull, awaited, prefix, obj, n) ==>
              exists i :: 0 <= i < n && (e.path == Join(prefix, obj.entries[i].0) || Below(Join(prefix, obj.entries[i].0), e.path))
    decreases obj, n
  {
    if n > 0 {
      WalkPaths(skipNull, awaited, prefix, obj, n - 1);
      var (k, v) := obj.entries[n - 1];
      VisitPaths(skipNull, awaited, Join(prefix, k), v);
      BelowJoin(prefix, k, Visit(skipNull, awaited, Join(prefix, k), v));
    }
  }

  /** Every path written for a value at `path` is `path` itself or below it. */
  lemma {:induction false} VisitPaths(skipNull: bool, awaited: map<string, bool>, path: string, v: Node)
    ensures forall e :: e in Visit(skipNull, awaited, path, v) ==> e.path == path || Below(path, e.path)
    decreases v, if v.Obj? then |v.entries| + 1 else 0
  {
    if !Skipped(skipNull, v) && !Awaited(awaited, path) && v.Obj? {
      WalkPaths(skipNull, awaited, path, v, |v.entries|);
    }
  }

  /** The walk visits (`path`, `node`) among the first `n` entries of `obj`:
      either it is one of those entries, or it lies below one of them that is
      an unawaited mapping. */
  ghost predicate ReachedIn(awaited: map<string, bool>, prefix: string, obj: Node, n: nat, path: string, node: Node)
    requires obj.Obj? && n <= |obj.entries|
    decreases obj, n
  {
    && n > 0
    && (|| ReachedIn(awaited, prefix, obj, n - 1, path, node)
        || ReachedAt(awaited, Join(prefix, obj.entries[n - 1].0), obj.entries[n - 1].1, path, node))
  }

  /** The walk, arriving at value `v` with path `p`, visits (`path`, `node`). */
  ghost predicate ReachedAt(awaited: map<string, bool>, p: string, v: Node, path: string, node: Node)
    decreases v, if v.Obj? then |v.entries| + 1 else 0
  {
    || (path == p && node == v)
    || (Descends(awaited, p, v) && ReachedIn(awaited, p, v, |v.entries|, path, node))
  }

  /** The walk from the root mapping visits (`path`, `node`). */
  ghost predicate Reached(awaited: map<string, bool>, root: Node, path: string, node: Node)
    requires root.Obj?
  {
    ReachedIn(awaited, "", root, |root.entries|, path, node)
  }

  /** Folds writes into map `m`, in order, keeping those aimed at `target`. */
  function Apply(m: map<string, string>, es: seq<Emission>, target: Target, conv: Node -> string): map<string, string>
  {
    if es == [] then m
    else
      var before := Apply(m, es[..|es| - 1], target, conv);
      var e := es[|es| - 1];
      if e.target == target then before[e.path := conv(e.node)] else before
  }

  /** `found` as the source's flatten leaves it. */
  function FoundOf(skipNull: bool, awaited: map<string, bool>, conv: Node -> string, root: Node): map<string, string>
    requires root.Obj?
  {
    Apply(map[], Walk(skipNull, awaited, "", root, |root.entries|), Found, conv)
  }

  /** `unknown` as the source's flatten leaves it. */
  function UnknownOf(skipNull: bool, awaited: map<string, bool>, conv: Node -> string, root: Node): map<string, string>
    requires root.Obj?
  {
    Apply(map[], Walk(skipNull, awaited, "", root, |root.entries|), Unknown, conv)
  }

  // ---------------------------------------------------------------------
  // The trace and the order-free description agree.

  /** A write occurs in the walk exactly when the walk visits its (path,
      node) and the emission rule sends that node to its target. */
  lemma {:induction false} WalkEmits(skipNull: bool, awaited: map<string, bool>, prefix: string, obj: Node, n: nat, e: Emission)
    requires obj.Obj? && n <= |obj.entries|
    ensures e in Walk(skipNull, awaited, prefix, obj, n)
        <==> Emits(skipNull, awaited, e) && ReachedIn(awaited, prefix, obj, n, e.path, e.node)
    decreases obj, n
  {
    if n > 0 {
      WalkEmits(skipNull, awaited, prefix, obj, n - 1, e);
      VisitEmits(skipNull, awaited, Join(prefix, obj.entries[n - 1].0), obj.entries[n - 1].1, e);
    }
  }

  /** `WalkEmits` for the writes made at a single value. */
  lemma {:induction false} VisitEmits(skipNull: bool, awaited: map<string, bool>, p: string, v: Node, e: Emission)
    ensures e in Visit(skipNull, awaited, p, v)
        <==> Emits(skipNull, awaited, e) && ReachedAt(awaited, p, v, e.path, e.node)
    decreases v, if v.Obj? then |v.entries| + 1 else 0
  {
    if !Skipped(skipNull, v) && !Awaited(awaited, p) && v.Obj? {
      WalkEmits(skipNull, awaited, p, v, |v.entries|, e);
    }
  }

  /** Every write of the walk follows the emission rule: `found` receives only
      awaited paths, `unknown` only unawaited paths whose node is not a
      mapping, and a skipped node is never written. */
  lemma EmissionsFollowRule(skipNull: bool, awaited: map<string, bool>, root: Node, e: Emission)
    requires root.Obj?
    requires e in Walk(skipNull, awaited, "", root, |root.entries|)
    ensures Emits(skipNull, awaited, e) && Reached(awaited, root, e.path, e.node)
    ensures e.target == Found ==> Awaited(awaited, e.path)
    ensures e.target == Unknown ==> !Awaited(awaited, e.path) && !e.node.Obj?
  {
    WalkEmits(skipNull, awaited, "", root, |root.entries|, e);
  }

  /** An awaited value is written once and whole, even when it is a mapping:
      the walk does not go below it. */
  lemma AwaitedValueIsOneWrite(skipNull: bool, awaited: map<string, bool>, p: string, v: Node)
    requires Awaited(awaited, p) && !Skipped(skipNull, v)
    ensures Visit(skipNull, awaited, p, v) == [Emission(Found, p, v)]
  {
  }

  /** An unawaited mapping produces no write of its own: its writes are
      exactly those of its entries, one level down. */
  lemma UnawaitedMappingIsDescended(skipNull: bool, awaited: map<string, bool>, p: string, v: Node)
    requires !Awaited(awaited, p) && v.Obj?
    ensures Visit(skipNull, awaited, p, v) == Walk(skipNull, awaited, p, v, |v.entries|)
    ensures forall e :: e in Visit(skipNull, awaited, p, v) ==> e.node != v || e.path != p
  {
    forall e | e in Visit(skipNull, awaited, p, v)
      ensures e.node != v || e.path != p
    {
      VisitEmits(skipNull, awaited, p, v, e);
    }
  }

  // ---------------------------------------------------------------------
  // Folding writes into maps.

  /** Folding a concatenation folds the first part, then the second. */
  lemma {:induction false} ApplyConcat(m: map<string, string>, a: seq<Emission>, b: seq<Emission>, target: Target, conv: Node -> string)
    ensures Apply(m, a + b, target, conv) == Apply(Apply(m, a, target, conv), b, target, conv)
    decreases |b|
  {
    if b == [] {
      assert a + b == a;
    } else {
      assert (a + b)[..|a + b| - 1] == a + b[..|b| - 1];
      ApplyConcat(m, a, b[..|b| - 1], target, conv);
    }
  }

  /** Folding the walk one entry further folds that entry's writes on top:
      those of value `v` at `path`, its key below the prefix. */
  lemma ApplyWalkStep(skipNull: bool, awaited: map<string, bool>, prefix: string, obj: Node, n: nat,
                      path: string, v: Node, m: map<string, string>, target: Target, conv: Node -> string)
    requires obj.Obj? && n < |obj.entries|
    requires path == Join(prefix, obj.entries[n].0) && v == obj.entries[n].1
    ensures Apply(m, Walk(skipNull, awaited, prefix, obj, n + 1), target, conv)
         == Apply(Apply(m, Walk(skipNull, awaited, prefix, obj, n), target, conv),
                  Visit(skipNull, awaited, path, v), target, conv)
  {
    ApplyConcat(m, Walk(skipNull, awaited, prefix, obj, n), Visit(skipNull, awaited, path, v), target, conv);
  }

  /** After folding, a key is present exactly when it was before or some write
      aimed at `target` names it; its value comes from one such write or, failing
      any, from the map before. */
  lemma {:induction false} ApplyEntry(m: map<string, string>, es: seq<Emission>, target: Target, conv: Node -> string, k: string)
    ensures k in Apply(m, es, target, conv)
        <==> k in m || exists e :: e in es && e.target == target && e.path == k
    ensures k in Apply(m, es, target, conv) && (exists e :: e in es && e.target == target && e.path == k) ==>
              exists e :: e in es && e.target == target && e.path == k && Apply(m, es, target, conv)[k] == conv(e.node)
    ensures k in Apply(m, es, target, conv) && !(exists e :: e in es && e.target == target && e.path == k) ==>
              Apply(m, es, target, conv)[k] == m[k]
    decreases |es|
  {
    if es != [] {
      var init := es[..|es| - 1];
      var last := es[|es| - 1];
      assert es == init + [last];
      ApplyEntry(m, init, target, conv, k);
      forall e | e in es
        ensures e in init || e == last
      {
      }
    }
  }

  // ---------------------------------------------------------------------
  // The flattened maps, whatever the iteration order.

  /** A key is in `found` exactly when it is awaited and the walk visits a
      node with that path that is not skipped; its value is the stringified
      form of such a node. */
  lemma FlattenFound(skipNull: bool, awaited: map<string, bool>, conv: Node -> string, root: Node, k: string)
    requires root.Obj?
    ensures k in FoundOf(skipNull, awaited, conv, root)
        <==> Awaited(awaited, k) && exists v :: Reached(awaited, root, k, v) && !Skipped(skipNull, v)
    ensures k in FoundOf(skipNull, awaited, conv, root) ==>
              exists v :: Reached(awaited, root, k, v) && !Skipped(skipNull, v)
                          && FoundOf(skipNull, awaited, conv, root)[k] == conv(v)
  {
    var es := Walk(skipNull, awaited, "", root, |root.entries|);
    ApplyEntry(map[], es, Found, conv, k);
    if k in FoundOf(skipNull, awaited, conv, root) {
      var e :| e in es && e.target == Found && e.path == k && FoundOf(skipNull, awaited, conv, root)[k] == conv(e.node);
      WalkEmits(skipNull, awaited, "", root, |root.entries|, e);
    }
    if Awaited(awaited, k) && exists v :: Reached(awaited, root, k, v) && !Skipped(skipNull, v) {
      var v :| Reached(awaited, root, k, v) && !Skipped(skipNull, v);
      WalkEmits(skipNull, awaited, "", root, |root.entries|, Emission(Found, k, v));
    }
  }

  /** A key is in `unknown` exactly when it is not awaited and the walk stops
      at a node with that path that is neither skipped nor a mapping; its
      value is the stringified form of such a node. An unawaited mapping
      therefore never appears in `unknown` itself, only its leaves do. */
  lemma FlattenUnknown(skipNull: bool, awaited: map<string, bool>, conv: Node -> string, root: Node, k: string)
    requires root.Obj?
    ensures k in UnknownOf(skipNull, awaited, conv, root)
        <==> !Awaited(awaited, k) && exists v :: Reached(awaited, root, k, v) && !Skipped(skipNull, v) && !v.Obj?
    ensures k in UnknownOf(skipNull, awaited, conv, root) ==>
              exists v :: Reached(awaited, root, k, v) && !Skipped(skipNull, v) && !v.Obj?
                          && UnknownOf(skipNull, awaited, conv, root)[k] == conv(v)
  {
    var es := Walk(skipNull, awaited, "", root, |root.entries|);
    ApplyEntry(map[], es, Unknown, conv, k);
    if k in UnknownOf(skipNull, awaited, conv, root) {
      var e :| e in es && e.target == Unknown && e.path == k && UnknownOf(skipNull, awaited, conv, root)[k] == conv(e.node);
      WalkEmits(skipNull, awaited, "", root, |root.entries|, e);
    }
    if !Awaited(awaited, k) && exists v :: Reached(awaited, root, k, v) && !Skipped(skipNull, v) && !v.Obj? {
      var v :| Reached(awaited, root, k, v) && !Skipped(skipNull, v) && !v.Obj?;
      WalkEmits(skipNull, awaited, "", root, |root.entries|, Emission(Unknown, k, v));
    }
  }

  /** Every `found` key is awaited, no `unknown` key is, so the two maps are
      disjoint whatever the iteration order. */
  lemma FlattenPartition(skipNull: bool, awaited: map<string, bool>, conv: Node -> string, root: Node)
    requires root.Obj?
    ensures forall k :: k in FoundOf(skipNull, awaited, conv, root) ==> Awaited(awaited, k)
    ensures forall k :: k in UnknownOf(skipNull, awaited, conv, root) ==> !Awaited(awaited, k)
    ensures FoundOf(skipNull, awaited, conv, root).Keys !! UnknownOf(skipNull, awaited, conv, root).Keys
  {
    forall k | k in FoundOf(skipNull, awaited, conv, root)
      ensures Awaited(awaited, k)
    {
      FlattenFound(skipNull, awaited, conv, root, k);
    }
    forall k | k in UnknownOf(skipNull, awaited, conv, root)
      ensures !Awaited(awaited, k)
    {
      FlattenUnknown(skipNull, awaited, conv, root, k);
    }
  }

  /** When the walk visits exactly one node with a given awaited path, the
      `found` entry for that path is that node, emitted whole. */
  lemma FoundIsTheReachedNode(skipNull: bool, awaited: map<string, bool>, conv: Node -> string, root: Node, k: string, v: Node)
    requires root.Obj?
    requires Awaited(awaited, k) && Reached(awaited, root, k, v) && !Skipped(skipNull, v)
    requires forall w :: Reached(awaited, root, k, w) ==> w == v
    ensures k in FoundOf(skipNull, awaited, conv, root) && FoundOf(skipNull, awaited, conv, root)[k] == conv(v)
  {
    FlattenFound(skipNull, awaited, conv, root, k);
  }
}
