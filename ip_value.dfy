/** The IP address option values. net.ParseIP is the parameter `parse`
    (None for the nil it returns on bad text), net.IP.String the parameter
    `format`, and the JSON decoding of a list of strings `decodeList`. */
module IpValue {
  import opened Wrappers
  import Sequences

  /** The bytes of an IP address (4 or 16 of them in Go). */
  type Addr = seq<bv8>

  /** A default rejected when the option is declared (the source panics). */
  datatype DeclError = BadAddress(text: string)

  /** The text of an IP: Go prints a nil IP as "<nil>". */
  function Text(v: Option<Addr>, format: Addr -> string): string {
    if v.None? then "<nil>" else format(v.value)
  }

  /** IP: an empty default gives a nil IP, other text must parse or the
      declaration is rejected. */
  function IPDefault(def: string, parse: string -> Option<Addr>): (r: Result<Option<Addr>, DeclError>)
    ensures r.Failure? <==> def != "" && parse(def).None?
    ensures r.Failure? ==> r.error == BadAddress(def)
    ensures r.Success? ==> r.value == parse(def)
    ensures def == "" && parse(def).None? ==> r == Success(None)
  {
    var parsed := parse(def);
    if parsed.None? && def != "" then Failure(BadAddress(def)) else Success(parsed)
  }

  /** IPs: every element is parsed in order; the first non-empty element that
      does not parse rejects the declaration, and an empty one that does not
      parse becomes a nil entry. */
  method IPsDefaults(defs: seq<string>, parse: string -> Option<Addr>)
    returns (r: Result<seq<Option<Addr>>, DeclError>)
    ensures r.Failure? <==> exists i :: 0 <= i < |defs| && defs[i] != "" && parse(defs[i]).None?
    ensures r.Failure? ==> exists i :: 0 <= i < |defs| && r.error == BadAddress(defs[i])
                                       && defs[i] != "" && parse(defs[i]).None?
                                       && forall j :: 0 <= j < i ==> IPDefault(defs[j], parse).Success?
    ensures r.Success? ==> |r.value| == |defs|
    ensures r.Success? ==> forall i :: 0 <= i < |defs| ==> Success(r.value[i]) == IPDefault(defs[i], parse)
  {
    var parsed := new Option<Addr>[|defs|](_ => None);
    for i := 0 to |defs|
      invariant forall j :: 0 <= j < i ==> IPDefault(defs[j], parse) == Success(parsed[j])
    {
      var ip := parse(defs[i]);
      if ip.None? && defs[i] != "" {
        return Failure(BadAddress(defs[i]));
      }
      parsed[i] := ip;
    }
    r := Success(parsed[..]);
  }

  class IpCell {
    /** The option's storage; None is a nil IP. */
    var value: Option<Addr>

    /** newIPValue: writes the default into the storage. */
    constructor (default: Option<Addr>)
      ensures value == default
    {
      value := default;
    }

    /** Stores the parsed address, or fails and leaves the value unchanged. */
    method Set(s: string, parse: string -> Option<Addr>) returns (ok: bool)
      modifies this
      ensures ok <==> parse(s).Some?
      ensures value == if ok then parse(s) else old(value)
    {
      var parsed := parse(s);
      if parsed.None? {
        return false;
      }
      value := parsed;
      ok := true;
    }

    function Type(): string {
      "ip"
    }

    /** The printed address; a nil IP prints as "<nil>". */
    function String(format: Addr -> string): (r: string)
      reads this
      ensures value.None? ==> r == "<nil>"
      ensures value.Some? ==> r == format(value.value)
    {
      Text(value, format)
    }
  }

  class IpSliceCell {
    var value: seq<Option<Addr>>

    /** newIPSlice: writes the default into the storage. */
    constructor (default: seq<Option<Addr>>)
      ensures value == default
    {
      value := default;
    }

    /** Decodes a JSON array of strings and parses every element into a
        fresh array. All or nothing: a decoding failure or one bad element
        fails and leaves the stored slice as it was; otherwise every entry is
        the parsed address of the element at the same position. */
    method Set(s: string, decodeList: string -> Option<seq<string>>, parse: string -> Option<Addr>)
      returns (ok: bool)
      modifies this
      ensures ok <==> decodeList(s).Some? && Sequences.ParseEach(decodeList(s).value, parse).Some?
      ensures ok ==> |value| == |decodeList(s).value|
      ensures ok ==> forall i :: 0 <= i < |value| ==> value[i] == parse(decodeList(s).value[i])
      ensures !ok ==> value == old(value)
    {
      var decoded := decodeList(s);
      if decoded.None? {
        return false;
      }
      var strs := decoded.value;
      var parsed := new Option<Addr>[|strs|](_ => None);
      for i := 0 to |strs|
        invariant value == old(value)
        invariant forall j :: 0 <= j < i ==> parse(strs[j]).Some? && parsed[j] == parse(strs[j])
      {
        var ip := parse(strs[i]);
        if ip.None? {
          return false;
        }
        parsed[i] := ip;
      }
      value := parsed[..];
      ok := true;
    }

    function Type(): string {
      "ips"
    }
  }

  /** Round trip through the printed text. For a present address it is the
      hypothesis that net.ParseIP reads back what net.IP.String printed; what
      is derived is that a nil IP prints as "<nil>", which the parser rejects,
      so Set(String()) fails on a nil IP. */
  lemma RoundTrip(v: Option<Addr>, parse: string -> Option<Addr>, format: Addr -> string)
    requires v.Some? ==> parse(format(v.value)) == v
    requires parse("<nil>") == None
    ensures v.Some? ==> parse(Text(v, format)) == v
    ensures v.None? ==> parse(Text(v, format)).None?
  {
  }

  /** The scalar's tag is "ip" and the slice's is its plural. */
  lemma TypeTags(c: IpCell, cs: IpSliceCell)
    ensures c.Type() == "ip"
    ensures cs.Type() == c.Type() + "s"
  {
  }
}
