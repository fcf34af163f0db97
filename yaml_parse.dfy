/** The YAML provider: reads a file, decodes it into a mapping and flattens
    it. Unlike the JSON provider it does not skip nulls, and an empty document
    gives empty maps. */
module YamlParse {
  import opened Wrappers
  import opened Document

  type Bytes = seq<bv8>

  datatype YamlError =
    | ReadFailed(path: string)  // os.ReadFile failed (I/O)
    | Malformed                 // yaml.Unmarshal failed

  class Parser {
    /** The file path behind the `*string` handed to New. */
    var path: string
    /** Stringification callback and awaited keys, stored by Parse before flattening. */
    var conv: Node -> string
    var awaited: map<string, bool>

    constructor (path: string)
      ensures this.path == path && awaited == map[]
    {
      this.path := path;
      conv := _ => "";
      awaited := map[];
    }

    function Type(): string {
      "yaml"
    }

    /** Provide for YAML. `read` stands for os.ReadFile and `decode` for
        yaml.Unmarshal into a `map[string]any`: None when it reports an error
        (a root that is not a mapping is one), Some(Null) for an empty
        document, which leaves the map nil. */
    method Parse(keys: map<string, bool>, conv: Node -> string, read: string -> Option<Bytes>, decode: Bytes -> Option<Node>)
      returns (r: Result<Provided, YamlError>)
      modifies this
      ensures path == old(path)
      ensures read(path).None? ==> r == Failure(ReadFailed(path)) && unchanged(this)
      ensures read(path).Some? ==>
                && this.conv == conv && this.awaited == keys
                && var settings := decode(read(path).value);
                   && (settings.None? ==> r == Failure(Malformed))
                   && (settings == Some(Null) ==> r == Success(Provided(map[], map[])))
                   && (settings.Some? && settings.value.Obj? ==>
                         r == Success(Provided(FoundOf(false, keys, conv, settings.value),
                                               UnknownOf(false, keys, conv, settings.value))))
                   && (settings.Some? && !settings.value.Obj? && !settings.value.Null? ==>
                         r == Failure(Malformed))
    {
      var data := read(path);
      if data.None? {
        return Failure(ReadFailed(path));
      }
      this.conv := conv;
      this.awaited := keys;
      r := ParseData(data.value, decode);
    }

    /** Decodes the data and flattens it; a nil (empty) document gives empty maps. */
    method ParseData(data: Bytes, decode: Bytes -> Option<Node>) returns (r: Result<Provided, YamlError>)
      ensures decode(data).None? ==> r == Failure(Malformed)
      ensures decode(data) == Some(Null) ==> r == Success(Provided(map[], map[]))
      ensures decode(data).Some? && decode(data).value.Obj? ==>
                r == Success(Provided(FoundOf(false, awaited, conv, decode(data).value),
                                      UnknownOf(false, awaited, conv, decode(data).value)))
      ensures decode(data).Some? && !decode(data).value.Obj? && !decode(data).value.Null? ==> r == Failure(Malformed)
    {
      var settings := decode(data);
      if settings.None? {
        return Failure(Malformed);
      }
      match settings.value
      case Null =>
        // A nil map: ranging over it does nothing.
        var found, unknown := Flatten(Obj([]));
        r := Success(Provided(found, unknown));
      case Obj(_) =>
        var found, unknown := Flatten(settings.value);
        r := Success(Provided(found, unknown));
      case _ =>
        // yaml.Unmarshal cannot store a non-mapping root in a map.
        r := Failure(Malformed);
    }

    /** Flattens a root mapping into fresh maps. */
    method Flatten(settings: Node) returns (found: map<string, string>, unknown: map<string, string>)
      requires settings.Obj?
      ensures found == FoundOf(false, awaited, conv, settings)
      ensures unknown == UnknownOf(false, awaited, conv, settings)
    {
      found, unknown := FlattenDFS(settings, "", map[], map[]);
    }

    /** The depth-first walk over one mapping: each entry's path is its key
        below the prefix, and the entry is handled by VisitEntry. */
    method FlattenDFS(m: Node, prefix: string, found0: map<string, string>, unknown0: map<string, string>)
      returns (found: map<string, string>, unknown: map<string, string>)
      requires m.Obj?
      ensures found == Apply(found0, Walk(false, awaited, prefix, m, |m.entries|), Found, conv)
      ensures unknown == Apply(unknown0, Walk(false, awaited, prefix, m, |m.entries|), Unknown, conv)
      decreases m, 0
    {
      found, unknown := found0, unknown0;
      for i := 0 to |m.entries|
        invariant found == Apply(found0, Walk(false, awaited, prefix, m, i), Found, conv)
        invariant unknown == Apply(unknown0, Walk(false, awaited, prefix, m, i), Unknown, conv)
      {
        var (k, v) := m.entries[i];
        var newKey := k;
        if prefix != "" {
          newKey := prefix + "." + k;
        }
        assert newKey == Join(prefix, k);
        found, unknown := VisitEntry(newKey, v, found, unknown);
        assert found == Apply(found0, Walk(false, awaited, prefix, m, i + 1), Found, conv) by {
          ApplyWalkStep(false, awaited, prefix, m, i, newKey, v, found0, Found, conv);
        }
        assert unknown == Apply(unknown0, Walk(false, awaited, prefix, m, i + 1), Unknown, conv) by {
          ApplyWalkStep(false, awaited, prefix, m, i, newKey, v, unknown0, Unknown, conv);
        }
      }
    }

    /** The loop body for one entry at `path`: an awaited path is
        written to `found` whole, an unawaited mapping is descended into,
        anything else (null included) goes to `unknown`. */
    method VisitEntry(path: string, v: Node, found0: map<string, string>, unknown0: map<string, string>)
      returns (found: map<string, string>, unknown: map<string, string>)
      ensures found == Apply(found0, Visit(false, awaited, path, v), Found, conv)
      ensures unknown == Apply(unknown0, Visit(false, awaited, path, v), Unknown, conv)
      decreases v, 1
    {
      if path in awaited && awaited[path] {
        found, unknown := found0[path := conv(v)], unknown0;
        assert [Emission(Found, path, v)][..0] == [];
      } else if v.Obj? {
        found, unknown := FlattenDFS(v, path, found0, unknown0);
      } else {
        found, unknown := found0, unknown0[path := conv(v)];
        assert [Emission(Unknown, path, v)][..0] == [];
      }
    }
  }

  // ---------------------------------------------------------------------
  // Properties particular to the YAML variant.

  /** Nulls are not skipped: a null the walk visits, at a path no other
      reached node shares, lands in `found` when awaited and in `unknown`
      otherwise, as the stringified null. */
  lemma NullIsEmitted(awaited: map<string, bool>, conv: Node -> string, root: Node, k: string)
    requires root.Obj?
    requires Reached(awaited, root, k, Null)
    requires forall w :: Reached(awaited, root, k, w) ==> w == Null
    ensures Awaited(awaited, k) ==>
              k in FoundOf(false, awaited, conv, root) && FoundOf(false, awaited, conv, root)[k] == conv(Null)
    ensures !Awaited(awaited, k) ==>
              k in UnknownOf(false, awaited, conv, root) && UnknownOf(false, awaited, conv, root)[k] == conv(Null)
  {
    FlattenFound(false, awaited, conv, root, k);
    FlattenUnknown(false, awaited, conv, root, k);
  }

  /** The YAML and JSON walks differ only in nulls: on a document without a
      null they make exactly the same writes. */
  lemma {:induction false} SameWalkWithoutNulls(awaited: map<string, bool>, prefix: string, obj: Node, n: nat)
    requires obj.Obj? && n <= |obj.entries|
    requires forall i :: 0 <= i < n ==> NullFree(obj.entries[i].1)
    ensures Walk(false, awaited, prefix, obj, n) == Walk(true, awaited, prefix, obj, n)
    decreases obj, n
  {
    if n > 0 {
      SameWalkWithoutNulls(awaited, prefix, obj, n - 1);
      SameVisitWithoutNulls(awaited, Join(prefix, obj.entries[n - 1].0), obj.entries[n - 1].1);
    }
  }

  /** `SameWalkWithoutNulls` for the writes made at one null-free value. */
  lemma {:induction false} SameVisitWithoutNulls(awaited: map<string, bool>, p: string, v: Node)
    requires NullFree(v)
    ensures Visit(false, awaited, p, v) == Visit(true, awaited, p, v)
    decreases v, if v.Obj? then |v.entries| + 1 else 0
  {
    if !Awaited(awaited, p) && v.Obj? {
      SameWalkWithoutNulls(awaited, p, v, |v.entries|);
    }
  }

  /** The YAML provider's type tag. */
  lemma TypeTag(p: Parser)
    ensures p.Type() == "yaml"
  {
  }

  /** No null occurs in a mapping's values, at any depth the walk can reach.
      Arrays are leaves for the walk and are not inspected. */
  ghost predicate NullFree(v: Node)
    decreases v
  {
    match v
    case Null => false
    case Obj(entries) => forall i :: 0 <= i < |entries| ==> NullFree(entries[i].1)
    case _ => true
  }
}
