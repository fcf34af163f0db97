/** The duration option values. time.ParseDuration is the parameter `parse`;
    the JSON decoding of a list of strings is the parameter `decodeList`. */
module DurationValue {
  import opened Wrappers
  import Sequences

  /** A time.Duration: a signed count of nanoseconds. Keeping it within 64
      bits is the parser's concern. */
  type Duration = int

  class DurationCell {
    /** The option's storage. */
    var value: Duration

    /** newDuration: writes the default into the storage. */
    constructor (default: Duration)
      ensures value == default
    {
      value := default;
    }

    /** Stores the parsed duration, or fails and leaves the value unchanged. */
    method Set(s: string, parse: string -> Option<Duration>) returns (ok: bool)
      modifies this
      ensures ok <==> parse(s).Some?
      ensures value == if ok then parse(s).value else old(value)
    {
      var d := parse(s);
      if d.None? {
        return false;
      }
      value := d.value;
      ok := true;
    }

    function Type(): string {
      "duration"
    }
  }

  class DurationSliceCell {
    var value: seq<Duration>

    /** newDurationSlice: writes the default into the storage. */
    constructor (default: seq<Duration>)
      ensures value == default
    {
      value := default;
    }

    /** Decodes a JSON array of strings and parses every element. All or
        nothing: a decoding failure or one bad element fails and leaves the
        stored slice as it was; otherwise the slice is replaced by the parsed
        elements, in order. */
    method Set(s: string, decodeList: string -> Option<seq<string>>, parse: string -> Option<Duration>)
      returns (ok: bool)
      modifies this
      ensures ok <==> decodeList(s).Some? && Sequences.ParseEach(decodeList(s).value, parse).Some?
      ensures value == if ok then Sequences.ParseEach(decodeList(s).value, parse).value else old(value)
    {
      var decoded := decodeList(s);
      if decoded.None? {
        return false;
      }
      var strs := decoded.value;
      var ds: seq<Duration> := [];
      for i := 0 to |strs|
        invariant |ds| == i
        invariant forall j :: 0 <= j < i ==> parse(strs[j]) == Some(ds[j])
      {
        var d := parse(strs[i]);
        if d.None? {
          return false;
        }
        ds := ds + [d.value];
      }
      value := ds;
      ok := true;
    }

    function Type(): string {
      "durations"
    }
  }

  /** The scalar's tag is "duration" and the slice's is its plural. */
  lemma TypeTags(d: DurationCell, ds: DurationSliceCell)
    ensures d.Type() == "duration"
    ensures ds.Type() == d.Type() + "s"
  {
  }
}
