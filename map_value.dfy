/** The map option value. A Go `map[string]any` is a reference to mutable
    contents, here a `Table`; the option's storage holds such a reference or
    nil. json.Unmarshal is the parameter `decode`, giving the decoded
    document (None when it reports an error). */
module MapValue {
  import opened Wrappers
  import opened Document

  /** The contents behind one Go map. */
  class Table {
    var entries: map<string, Node>

    constructor (entries: map<string, Node>)
      ensures this.entries == entries
    {
      this.entries := entries;
    }
  }

  /** The map json.Unmarshal stores for an object: the entries written in
      order, so a repeated key keeps its last value. */
  function ObjectMap(es: seq<(string, Node)>): map<string, Node> {
    if es == [] then map[]
    else ObjectMap(es[..|es| - 1])[es[|es| - 1].0 := es[|es| - 1].1]
  }

  /** The decoded map has every key of the object and no other. */
  lemma {:induction false} ObjectMapKeys(es: seq<(string, Node)>)
    ensures forall k :: k in ObjectMap(es) <==> exists i :: 0 <= i < |es| && es[i].0 == k
  {
    if es != [] {
      var front := es[..|es| - 1];
      ObjectMapKeys(front);
      assert forall i :: 0 <= i < |front| ==> front[i] == es[i];
    }
  }

  /** Each key of the decoded map holds the value of its last occurrence. */
  lemma {:induction false} ObjectMapLastWins(es: seq<(string, Node)>)
    ensures forall k :: k in ObjectMap(es) ==> exists i :: 0 <= i < |es| && es[i] == (k, ObjectMap(es)[k])
                                                 && forall j :: i < j < |es| ==> es[j].0 != k
  {
    if es != [] {
      var front := es[..|es| - 1];
      var last := es[|es| - 1];
      ObjectMapLastWins(front);
      var m := ObjectMap(es);
      forall k | k in m
        ensures exists i :: 0 <= i < |es| && es[i] == (k, m[k]) && forall j :: i < j < |es| ==> es[j].0 != k
      {
        if k == last.0 {
          assert es[|es| - 1] == (k, m[k]);
        } else {
          assert m == ObjectMap(front)[last.0 := last.1] && k in ObjectMap(front);
          var i :| 0 <= i < |front| && front[i] == (k, ObjectMap(front)[k]) && forall j :: i < j < |front| ==> front[j].0 != k;
          assert es[i] == front[i];
          assert forall j :: i < j < |es| ==> es[j].0 != k by {
            forall j | i < j < |es| ensures es[j].0 != k {
              if j < |front| {
                assert es[j] == front[j];
              }
            }
          }
        }
      }
    }
  }

  /** A decoded document json.Unmarshal can store into a map: an object, or
      null, which makes the map nil. */
  predicate Storable(d: Option<Node>) {
    d.Some? && (d.value.Obj? || d.value.Null?)
  }

  class MapCell {
    /** The option's storage; null is a nil map. */
    var table: Table?

    /** newMapValue: writes the default into the storage. */
    constructor (default: Table?)
      ensures table == default
    {
      table := default;
    }

    /** Empties the live map in place, then decodes into it. An object fills
        that same map (or a new one, when the map was nil); null makes the
        storage nil; a failed decode leaves the map empty, the earlier
        entries are not restored. */
    method Set(s: string, decode: string -> Option<Node>) returns (ok: bool)
      modifies this, table
      ensures ok <==> Storable(decode(s))
      ensures old(table) != null ==>
                old(table).entries == (if ok && decode(s).value.Obj? then ObjectMap(decode(s).value.entries) else map[])
      ensures ok && decode(s).value.Obj? ==>
                && table != null
                && table.entries == ObjectMap(decode(s).value.entries)
                && (old(table) != null ==> table == old(table))
                && (old(table) == null ==> fresh(table))
      ensures ok && decode(s).value.Null? ==> table == null
      ensures !ok ==> table == old(table)
    {
      if table != null {
        while table.entries != map[]
          invariant table == old(table) && table != null
          decreases table.entries.Keys
        {
          var k :| k in table.entries;
          table.entries := table.entries - {k};
        }
      }
      var d := decode(s);
      if !Storable(d) {
        return false;
      }
      if d.value.Null? {
        table := null;
        return true;
      }
      var contents := ObjectMap(d.value.entries);
      if table == null {
        table := new Table(contents);
      } else {
        table.entries := contents;
      }
      ok := true;
    }

    function Type(): string {
      "map"
    }
  }

  /** Map: registers the option with its default and hands the caller the
      map the storage holds at that moment. */
  method Register(default: Table?) returns (cell: MapCell, handle: Table?)
    ensures fresh(cell) && cell.table == default && handle == default
  {
    cell := new MapCell(default);
    handle := cell.table;
  }

  /** With a nil default the caller's map stays nil: a later Set of an
      object allocates a new map the caller never sees. */
  method NilDefaultMissesSet(s: string, decode: string -> Option<Node>)
    returns (handle: Table?, current: Table?)
    requires decode(s) == Some(Obj([("max", Scalar("10"))]))
    ensures handle == null
    ensures current != null && "max" in current.entries
  {
    var cell;
    cell, handle := Register(null);
    var ok := cell.Set(s, decode);
    current := cell.table;
    ObjectMapKeys([("max", Scalar("10"))]);
    assert [("max", Scalar("10"))][0].0 == "max";
  }

  /** The map option as evidently intended: the storage always holds the
      same live map, allocated at registration when the default is nil, so
      the map handed to the caller shows every Set. Null and failed decodes
      leave it empty. */
  class LiveMapCell {
    const table: Table

    constructor (default: Table?)
      ensures default != null ==> table == default
      ensures default == null ==> fresh(table) && table.entries == map[]
    {
      if default == null {
        table := new Table(map[]);
      } else {
        table := default;
      }
    }

    method Set(s: string, decode: string -> Option<Node>) returns (ok: bool)
      modifies table
      ensures ok <==> Storable(decode(s))
      ensures table.entries == if ok && decode(s).value.Obj? then ObjectMap(decode(s).value.entries) else map[]
    {
      while table.entries != map[]
        decreases table.entries.Keys
      {
        var k :| k in table.entries;
        table.entries := table.entries - {k};
      }
      var d := decode(s);
      if !Storable(d) {
        return false;
      }
      if d.value.Obj? {
        table.entries := ObjectMap(d.value.entries);
      }
      ok := true;
    }

    function Type(): string {
      "map"
    }
  }

  method RegisterLive(default: Table?) returns (cell: LiveMapCell, handle: Table)
    ensures fresh(cell) && handle == cell.table
    ensures default != null ==> handle == default
    ensures default == null ==> fresh(handle) && handle.entries == map[]
  {
    cell := new LiveMapCell(default);
    handle := cell.table;
  }

  /** With the live map, the caller's map holds what a Set stored, even when
      the default was nil. */
  method NilDefaultSeesSet(s: string, decode: string -> Option<Node>)
    returns (handle: Table)
    requires decode(s) == Some(Obj([("max", Scalar("10"))]))
    ensures "max" in handle.entries && handle.entries["max"] == Scalar("10")
  {
    var cell;
    cell, handle := RegisterLive(null);
    var ok := cell.Set(s, decode);
    ObjectMapLastWins([("max", Scalar("10"))]);
    assert [("max", Scalar("10"))][0] == ("max", Scalar("10"));
  }

  /** The map value's type tag, the same for both cells. */
  lemma TypeTag(c: MapCell, l: LiveMapCell)
    ensures c.Type() == "map" && l.Type() == c.Type()
  {
  }
}
