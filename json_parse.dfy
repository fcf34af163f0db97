/** The JSON provider: reads a document from an optional source URL, checks
    that its root is an object and flattens it, skipping nulls. */
module JsonParse {
  import opened Wrappers
  import opened Document
  import UrlValue

  type Bytes = seq<bv8>

  datatype JsonError =
    | FetchFailed(source: UrlValue.Url)  // fetchJSONData failed (I/O)
    | EmptyInput                         // the fetched data is empty
    | Malformed                          // the decoder rejected the data
    | RootNotObject                      // the decoded root is not an object

  class Parser {
    /** The value currently behind the `**url.URL` handed to New: None for a nil URL. */
    var sourceURL: Option<UrlValue.Url>
    /** Stringification callback and awaited keys, stored by Parse before flattening. */
    var conv: Node -> string
    var awaited: map<string, bool>

    constructor (sourceURL: Option<UrlValue.Url>)
      ensures this.sourceURL == sourceURL && awaited == map[]
    {
      this.sourceURL := sourceURL;
      conv := _ => "";
      awaited := map[];
    }

    /** "json", or "json[<url>]" when a source URL is set. */
    function Type(): (tag: string)
      reads this
      ensures |tag| >= 4 && tag[..4] == "json"
      ensures sourceURL.None? <==> tag == "json"
      ensures sourceURL.Some? ==> tag == "json[" + sourceURL.value.canonical + "]"
    {
      if sourceURL.None? then "json" else "json[" + sourceURL.value.canonical + "]"
    }

    /** Provide for JSON. `fetch` stands for fetchJSONData (HTTP, file and
        schemeless sources), `decode` for encoding/json with UseNumber. An
        unset source gives empty maps and no error. */
    method Parse(keys: map<string, bool>, conv: Node -> string, fetch: UrlValue.Url -> Option<Bytes>, decode: Bytes -> Option<Node>)
      returns (r: Result<Provided, JsonError>)
      modifies this
      ensures sourceURL == old(sourceURL)
      ensures sourceURL.None? ==> r == Success(Provided(map[], map[])) && unchanged(this)
      ensures sourceURL.Some? && fetch(sourceURL.value).None? ==>
                r == Failure(FetchFailed(sourceURL.value)) && unchanged(this)
      ensures sourceURL.Some? && fetch(sourceURL.value).Some? ==>
                && this.conv == conv && this.awaited == keys
                && var data := fetch(sourceURL.value).value;
                   && (|data| == 0 ==> r == Failure(EmptyInput))
                   && (|data| > 0 && decode(data).None? ==> r == Failure(Malformed))
                   && (|data| > 0 && decode(data).Some? && !decode(data).value.Obj? ==> r == Failure(RootNotObject))
                   && (|data| > 0 && decode(data).Some? && decode(data).value.Obj? ==>
                         r == Success(Provided(FoundOf(true, keys, conv, decode(data).value),
                                               UnknownOf(true, keys, conv, decode(data).value))))
    {
      if sourceURL.None? {
        return Success(Provided(map[], map[]));
      }
      var currentURL := sourceURL.value;
      var data := fetch(currentURL);
      if data.None? {
        return Failure(FetchFailed(currentURL));
      }
      this.conv := conv;
      this.awaited := keys;
      r := ParseData(data.value, decode);
    }

    /** Checks the fetched data and flattens its root object. */
    method ParseData(data: Bytes, decode: Bytes -> Option<Node>) returns (r: Result<Provided, JsonError>)
      ensures |data| == 0 ==> r == Failure(EmptyInput)
      ensures |data| > 0 && decode(data).None? ==> r == Failure(Malformed)
      ensures |data| > 0 && decode(data).Some? && !decode(data).value.Obj? ==> r == Failure(RootNotObject)
      ensures |data| > 0 && decode(data).Some? && decode(data).value.Obj? ==>
                r == Success(Provided(FoundOf(true, awaited, conv, decode(data).value),
                                      UnknownOf(true, awaited, conv, decode(data).value)))
    {
      if |data| == 0 {
        return Failure(EmptyInput);
      }
      var settings := decode(data);
      if settings.None? {
        return Failure(Malformed);
      }
      if !settings.value.Obj? {
        return Failure(RootNotObject);
      }
      var found, unknown := Flatten(settings.value);
      r := Success(Provided(found, unknown));
    }

    /** Flattens a root object into fresh maps. */
    method Flatten(settings: Node) returns (found: map<string, string>, unknown: map<string, string>)
      requires settings.Obj?
      ensures found == FoundOf(true, awaited, conv, settings)
      ensures unknown == UnknownOf(true, awaited, conv, settings)
    {
      found, unknown := FlattenDFS(settings, "", map[], map[]);
    }

    /** The depth-first walk over one mapping: each entry's path is its key
        below the prefix, and the entry is handled by VisitEntry. */
    method FlattenDFS(m: Node, prefix: string, found0: map<string, string>, unknown0: map<string, string>)
      returns (found: map<string, string>, unknown: map<string, string>)
      requires m.Obj?
      ensures found == Apply(found0, Walk(true, awaited, prefix, m, |m.entries|), Found, conv)
      ensures unknown == Apply(unknown0, Walk(true, awaited, prefix, m, |m.entries|), Unknown, conv)
      decreases m, 0
    {
      found, unknown := found0, unknown0;
      for i := 0 to |m.entries|
        invariant found == Apply(found0, Walk(true, awaited, prefix, m, i), Found, conv)
        invariant unknown == Apply(unknown0, Walk(true, awaited, prefix, m, i), Unknown, conv)
      {
        var (k, v) := m.entries[i];
        var newKey := k;
        if prefix != "" {
          newKey := prefix + "." + k;
        }
        assert newKey == Join(prefix, k);
        found, unknown := VisitEntry(newKey, v, found, unknown);
        assert found == Apply(found0, Walk(true, awaited, prefix, m, i + 1), Found, conv) by {
          ApplyWalkStep(true, awaited, prefix, m, i, newKey, v, found0, Found, conv);
        }
        assert unknown == Apply(unknown0, Walk(true, awaited, prefix, m, i + 1), Unknown, conv) by {
          ApplyWalkStep(true, awaited, prefix, m, i, newKey, v, unknown0, Unknown, conv);
        }
      }
    }

    /** The loop body for one entry at `path`: a null is skipped, an awaited
        path is written to `found` whole, an unawaited mapping is descended
        into, anything else goes to `unknown`. */
    method VisitEntry(path: string, v: Node, found0: map<string, string>, unknown0: map<string, string>)
      returns (found: map<string, string>, unknown: map<string, string>)
      ensures found == Apply(found0, Visit(true, awaited, path, v), Found, conv)
      ensures unknown == Apply(unknown0, Visit(true, awaited, path, v), Unknown, conv)
      decreases v, 1
    {
      if v.Null? {
        return found0, unknown0;
      }
      if path in awaited && awaited[path] {
        found, unknown := found0[path := conv(v)], unknown0;
        assert [Emission(Found, path, v)][..0] == [];
      } else if v.Obj? {
        found, unknown := FlattenDFS(v, path, found0, unknown0);
      } else {
        found, unknown := found0, unknown0[path := conv(v)];
        assert [Emission(Unknown, path, v)][..0] == [];
      }
    }
  }

  // ---------------------------------------------------------------------
  // Properties particular to the JSON variant.

  /** A null is never the source of an entry: every `found` and `unknown`
      value is the stringified form of a non-null node the walk stopped at. */
  lemma NullNeverEmitted(awaited: map<string, bool>, conv: Node -> string, root: Node, k: string)
    requires root.Obj?
    ensures k in FoundOf(true, awaited, conv, root) ==>
              exists v :: Reached(awaited, root, k, v) && !v.Null? && FoundOf(true, awaited, conv, root)[k] == conv(v)
    ensures k in UnknownOf(true, awaited, conv, root) ==>
              exists v :: Reached(awaited, root, k, v) && !v.Null? && UnknownOf(true, awaited, conv, root)[k] == conv(v)
  {
    FlattenFound(true, awaited, conv, root, k);
    FlattenUnknown(true, awaited, conv, root, k);
  }

  /** A path whose only value is null is in neither map, even when awaited. */
  lemma NullPathAbsent(awaited: map<string, bool>, conv: Node -> string, root: Node, k: string)
    requires root.Obj?
    requires Reached(awaited, root, k, Null)
    requires forall w :: Reached(awaited, root, k, w) ==> w == Null
    ensures k !in FoundOf(true, awaited, conv, root)
    ensures k !in UnknownOf(true, awaited, conv, root)
  {
    FlattenFound(true, awaited, conv, root, k);
    FlattenUnknown(true, awaited, conv, root, k);
  }

  /** Keys that contain a dot can collide with nested paths: for
      {"a.b": 1, "a": {"b": 2}} with "a.b" awaited, the two iteration orders
      of the same Go map leave different values in `found`. */
  lemma CollidingPathsDependOnOrder(conv: Node -> string)
    ensures var awaited := map["a.b" := true];
            var one := Obj([("a.b", Scalar("1")), ("a", Obj([("b", Scalar("2"))]))]);
            var other := Obj([("a", Obj([("b", Scalar("2"))])), ("a.b", Scalar("1"))]);
            && "a.b" in FoundOf(true, awaited, conv, one)
            && "a.b" in FoundOf(true, awaited, conv, other)
            && FoundOf(true, awaited, conv, one)["a.b"] == conv(Scalar("2"))
            && FoundOf(true, awaited, conv, other)["a.b"] == conv(Scalar("1"))
  {
    var awaited := map["a.b" := true];
    var inner := Obj([("b", Scalar("2"))]);
    var one := Obj([("a.b", Scalar("1")), ("a", inner)]);
    var other := Obj([("a", inner), ("a.b", Scalar("1"))]);
    var nested := Emission(Found, "a.b", Scalar("2"));
    var top := Emission(Found, "a.b", Scalar("1"));
    assert Join("a", "b") == "a.b";
    assert Walk(true, awaited, "a", inner, 1) == [nested];
    assert Visit(true, awaited, "a", inner) == [nested];
    assert Visit(true, awaited, Join("", "a.b"), Scalar("1")) == [top];
    assert Visit(true, awaited, Join("", "a"), inner) == [nested];
    assert Walk(true, awaited, "", one, 1) == [top];
    assert Walk(true, awaited, "", one, 2) == [top] + [nested];
    assert Walk(true, awaited, "", other, 1) == [nested];
    assert Walk(true, awaited, "", other, 2) == [nested] + [top];
    assert [top, nested][..1] == [top];
    assert [nested, top][..1] == [nested];
  }
}
