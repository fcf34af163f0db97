/** The boolean option values: a tolerant, case-insensitive vocabulary for
    the scalar, and the plural tag for the slice. */
module BoolValue {
  import opened Wrappers

  /** ASCII lower-casing. strings.ToLower is Unicode-aware, but no non-ASCII
      character lower-cases into one of the letters of the vocabulary below,
      so acceptance is the same. */
  function LowerChar(c: char): char {
    if 'A' <= c <= 'Z' then (c as int - 'A' as int + 'a' as int) as char else c
  }

  function Lower(s: string): string {
    seq(|s|, i requires 0 <= i < |s| => LowerChar(s[i]))
  }

  /** Two texts that are equal up to the case of their ASCII letters. */
  predicate EqualFold(s: string, t: string) {
    |s| == |t| && forall i :: 0 <= i < |s| ==> LowerChar(s[i]) == LowerChar(t[i])
  }

  /** The texts, in lower case, that read as true and as false. */
  const TrueWords: set<string> := {"", "true", "1", "yes"}
  const FalseWords: set<string> := {"false", "0", "no"}

  /** strToBool: the lower-cased text is looked up in the two vocabularies,
      which share no word; anything else is an error (None). */
  function StrToBool(s: string): (r: Option<bool>)
    ensures r == Some(true) <==> Lower(s) in TrueWords
    ensures r == Some(false) <==> Lower(s) in FalseWords
    ensures r.None? <==> Lower(s) !in TrueWords + FalseWords
  {
    var l := Lower(s);
    if l == "" || l == "true" || l == "1" || l == "yes" then Some(true)
    else if l == "false" || l == "0" || l == "no" then Some(false)
    else None
  }

  /** The text strconv.FormatBool prints for a boolean. */
  function FormatBool(b: bool): string {
    if b then "true" else "false"
  }

  /** Acceptance depends only on the letters, not on their case. */
  lemma StrToBoolIgnoresCase(s: string, t: string)
    requires EqualFold(s, t)
    ensures StrToBool(s) == StrToBool(t)
  {
    assert Lower(s) == Lower(t);
  }

  /** The canonical text of a boolean reads back as that boolean. */
  lemma StrToBoolRoundTrip(b: bool)
    ensures StrToBool(FormatBool(b)) == Some(b)
  {
    if b {
      assert Lower("true") == "true";
    } else {
      assert Lower("false") == "false";
    }
  }

  /** The empty text is true, mixed-case spellings are accepted, and words
      outside the vocabulary are rejected. */
  lemma StrToBoolExamples()
    ensures StrToBool("") == Some(true)
    ensures StrToBool("YES") == Some(true)
    ensures StrToBool("No") == Some(false)
    ensures StrToBool("0") == Some(false)
    ensures StrToBool("maybe") == None
    ensures StrToBool("on") == None
  {
    assert Lower("YES") == "yes";
    assert Lower("No") == "no";
    assert Lower("0") == "0";
    assert Lower("maybe") == "maybe";
    assert Lower("on") == "on";
  }

  class BoolCell {
    /** The option's storage. */
    var value: bool

    /** newBoolValue: writes the default into the storage. */
    constructor (default: bool)
      ensures value == default
    {
      value := default;
    }

    /** Stores the parsed boolean, or fails and leaves the value unchanged. */
    method Set(s: string) returns (ok: bool)
      modifies this
      ensures ok <==> StrToBool(s).Some?
      ensures value == if ok then StrToBool(s).value else old(value)
    {
      var v := StrToBool(s);
      if v.None? {
        return false;
      }
      value := v.value;
      ok := true;
    }

    function Type(): string {
      "bool"
    }
  }

  class BoolSliceCell {
    var value: seq<bool>

    /** newBoolSlice: writes the default into the storage. */
    constructor (default: seq<bool>)
      ensures value == default
    {
      value := default;
    }

    function Type(): string {
      "bools"
    }
  }

  /** The scalar's tag is "bool" and the slice's is its plural. */
  lemma TypeTags(b: BoolCell, bs: BoolSliceCell)
    ensures b.Type() == "bool"
    ensures bs.Type() == b.Type() + "s"
  {
  }
}
