/** The string option values. */
module StringValue {

  class StringCell {
    /** The option's storage. */
    var value: string

    /** newStringValue: writes the default into the storage. */
    constructor (default: string)
      ensures value == default
    {
      value := default;
    }

    /** Never fails and stores the text as it is, so the last Set wins and
        setting the current value again changes nothing. */
    method Set(s: string) returns (ok: bool)
      modifies this
      ensures ok && value == s
    {
      value := s;
      ok := true;
    }

    function Type(): string {
      "string"
    }
  }

  class StringSliceCell {
    var value: seq<string>

    /** newStringSlice: writes the default into the storage. */
    constructor (default: seq<string>)
      ensures value == default
    {
      value := default;
    }

    function Type(): string {
      "strings"
    }
  }

  /** Setting twice keeps the last text; setting the current value back
      keeps it. */
  method SetTwice(c: StringCell, first: string, second: string)
    modifies c
    ensures c.value == second
  {
    var ok := c.Set(first);
    ok := c.Set(second);
    var current := c.value;
    ok := c.Set(current);
    assert c.value == second;
  }

  /** The scalar's tag is "string" and the slice's is its plural. */
  lemma TypeTags(s: StringCell, ss: StringSliceCell)
    ensures s.Type() == "string"
    ensures ss.Type() == s.Type() + "s"
  {
  }
}
