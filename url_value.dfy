/** The URL option value: an optional URL where empty text means "absent". */
module UrlValue {
  import opened Wrappers

  /** A parsed URL, represented by the text its String method prints; the
      individual fields of a URL are not modelled. */
  datatype Url = Url(canonical: string)

  /** A default value rejected when the option is declared (the source panics). */
  datatype DeclError = BadDefault(text: string)

  /** The value Set(s) stores, or None when Set(s) fails: empty text resets to
      absent, other text fails exactly when it does not parse and otherwise
      gives the parsed URL. `parse` stands for url.Parse. */
  function FromText(s: string, parse: string -> Option<Url>): (r: Option<Option<Url>>)
    ensures s == "" ==> r == Some(None)
    ensures s != "" ==> (r.None? <==> parse(s).None?)
    ensures s != "" && parse(s).Some? ==> r == Some(parse(s))
  {
    if s == "" then Some(None)
    else match parse(s)
      case None => None
      case Some(u) => Some(Some(u))
  }

  /** What String prints: "" for an absent URL. */
  function Text(v: Option<Url>): string {
    if v.None? then "" else v.value.canonical
  }

  /** The default of a URL option: empty text starts absent, other text must
      parse or the declaration is rejected. */
  function Default(def: string, parse: string -> Option<Url>): (r: Result<Option<Url>, DeclError>)
    ensures def == "" ==> r == Success(None)
    ensures def != "" ==> (r.Failure? <==> parse(def).None?)
    ensures r.Failure? ==> r.error == BadDefault(def)
    ensures def != "" && r.Success? ==> r.value == parse(def) && r.value.Some?
  {
    if def != "" then
      match parse(def)
      case None => Failure(BadDefault(def))
      case Some(u) => Success(Some(u))
    else Success(None)
  }

  /** Round trip: setting a cell to the text of its own value keeps that value
      when the value is absent (it prints as "" and "" resets to absent), or
      when it is a present URL with non-empty text that url.Parse reads back;
      the latter is a hypothesis about url.Parse, not derived here. */
  lemma RoundTrip(v: Option<Url>, parse: string -> Option<Url>)
    requires v.Some? ==> v.value.canonical != "" && parse(v.value.canonical) == v
    ensures FromText(Text(v), parse) == Some(v)
  {
  }

  /** The round trip fails for a present URL that prints as "" (url.Parse("#")
      gives one): its text resets the cell to absent. */
  lemma EmptyPrintingUrlResets(parse: string -> Option<Url>)
    ensures Text(Some(Url(""))) == ""
    ensures FromText(Text(Some(Url(""))), parse) == Some(None)
    ensures FromText(Text(Some(Url(""))), parse) != Some(Some(Url("")))
  {
  }

  class UrlCell {
    /** The storage the source reaches through a `**url.URL`; None is nil. */
    var value: Option<Url>

    /** newURLValue: writes the default into the storage. */
    constructor (default: Option<Url>)
      ensures value == default
    {
      value := default;
    }

    /** Empty text makes the URL absent; unparsable text fails and leaves the
        value unchanged; otherwise the parsed URL is stored. */
    method Set(s: string, parse: string -> Option<Url>) returns (ok: bool)
      modifies this
      ensures ok <==> FromText(s, parse).Some?
      ensures value == if ok then FromText(s, parse).value else old(value)
    {
      if s == "" {
        value := None;
        return true;
      }
      var parsed := parse(s);
      if parsed.None? {
        return false;
      }
      value := parsed;
      ok := true;
    }

    function Type(): string {
      "url"
    }

    /** The text of the stored URL: "" when it is absent. */
    function String(): (r: string)
      reads this
      ensures value.None? ==> r == ""
      ensures value.Some? ==> r == value.value.canonical
    {
      Text(value)
    }
  }

  /** The URL value's type tag. */
  lemma TypeTag(c: UrlCell)
    ensures c.Type() == "url"
  {
  }
}
