/** The environment provider: maps every awaited key to an environment
    variable name and looks it up. */
module EnvParse {
  import opened Wrappers
  import opened Document

  /** The characters the cleaning expression `[^A-Za-z0-9.]+` leaves in place. */
  predicate Kept(c: char) {
    ('A' <= c <= 'Z') || ('a' <= c <= 'z') || ('0' <= c <= '9') || c == '.'
  }

  /** The characters an environment variable name built by ToEnv may hold. */
  predicate EnvNameChar(c: char) {
    ('A' <= c <= 'Z') || ('0' <= c <= '9') || c == '_'
  }

  /** Deletes every character the cleaning expression matches. */
  function Clean(s: string): string {
    if s == [] then []
    else (if Kept(s[0]) then [s[0]] else []) + Clean(s[1..])
  }

  /** Upper-casing. After Clean only ASCII remains, where strings.ToUpper is
      ASCII upper-casing. */
  function UpperChar(c: char): char {
    if 'a' <= c <= 'z' then (c as int - 'a' as int + 'A' as int) as char else c
  }

  function Upper(s: string): string {
    seq(|s|, i requires 0 <= i < |s| => UpperChar(s[i]))
  }

  function DotsToUnderscores(s: string): string {
    seq(|s|, i requires 0 <= i < |s| => if s[i] == '.' then '_' else s[i])
  }

  /** The number of characters of `s` that survive cleaning. */
  function CountKept(s: string): nat {
    if s == [] then 0 else (if Kept(s[0]) then 1 else 0) + CountKept(s[1..])
  }

  /** toENV: clean, upper-case, then turn dots into underscores. The result
      holds only upper-case letters, digits and underscores (so no dot and
      no lower-case letter), one for each character of `s` that is kept. */
  function ToEnv(s: string): (r: string)
    ensures forall i :: 0 <= i < |r| ==> EnvNameChar(r[i])
    ensures |r| == CountKept(s)
  {
    CleanKeeps(s);
    DotsToUnderscores(Upper(Clean(s)))
  }

  /** Cleaning keeps exactly the kept characters: all of them, and only them. */
  lemma {:induction false} CleanKeeps(s: string)
    ensures forall i :: 0 <= i < |Clean(s)| ==> Kept(Clean(s)[i])
    ensures |Clean(s)| == CountKept(s)
  {
    if s != [] {
      CleanKeeps(s[1..]);
    }
  }

  /** Cleaning works character by character, so it splits over concatenation. */
  lemma {:induction false} CleanConcat(a: string, b: string)
    ensures Clean(a + b) == Clean(a) + Clean(b)
  {
    if a == [] {
      assert a + b == b;
    } else {
      var head := if Kept(a[0]) then [a[0]] else [];
      assert (a + b)[0] == a[0];
      assert (a + b)[1..] == a[1..] + b;
      assert Clean(a + b) == head + Clean(a[1..] + b);
      CleanConcat(a[1..], b);
      assert Clean(a) == head + Clean(a[1..]);
    }
  }

  /** toENV maps each piece of a string independently. */
  lemma ToEnvConcat(a: string, b: string)
    ensures ToEnv(a + b) == ToEnv(a) + ToEnv(b)
  {
    CleanConcat(a, b);
    var ca, cb := Clean(a), Clean(b);
    assert Upper(ca + cb) == Upper(ca) + Upper(cb);
    assert DotsToUnderscores(Upper(ca) + Upper(cb)) == DotsToUnderscores(Upper(ca)) + DotsToUnderscores(Upper(cb));
  }

  /** Keys that differ only in letter case name the same variable. */
  lemma {:induction false} ToEnvIgnoresCase(s: string)
    ensures ToEnv(Upper(s)) == ToEnv(s)
  {
    if s != [] {
      assert Upper(s) == [UpperChar(s[0])] + Upper(s[1..]);
      ToEnvConcat([UpperChar(s[0])], Upper(s[1..]));
      assert s == [s[0]] + s[1..];
      ToEnvConcat([s[0]], s[1..]);
      ToEnvIgnoresCase(s[1..]);
    }
  }

  /** Cleaning is idempotent: a cleaned string holds only kept characters. */
  lemma CleanIdempotent(s: string)
    ensures Clean(Clean(s)) == Clean(s)
  {
    CleanKeeps(s);
    CleanAllKept(Clean(s));
  }

  /** Keys that differ only in characters cleaning deletes name the same
      variable: a key and its cleaned form give the same name. */
  lemma ToEnvIgnoresDeleted(s: string)
    ensures ToEnv(Clean(s)) == ToEnv(s)
  {
    CleanIdempotent(s);
  }

  datatype EnvError = DotenvFailed(path: string)

  /** The provider's options: a variable-name prefix and an optional .env file. */
  datatype Provider = Provider(prefix: string, path: Option<string>) {

    function Type(): string {
      "env"
    }

    /** The key the provider looks for: the prefix joined with a dot, if set. */
    function Key(s: string): (r: string)
      ensures prefix == "" ==> r == s
      ensures prefix != "" ==> |r| == |prefix| + 1 + |s| && r[..|prefix|] == prefix
                               && r[|prefix|] == '.' && r[|prefix| + 1..] == s
    {
      if prefix != "" then prefix + "." + s else s
    }

    /** The environment variable an awaited key is read from. */
    function VarName(k: string): string {
      ToEnv(Key(k))
    }

    /** Provide for the environment. `environ` is the process environment as
        it stands after the .env file (if any) was loaded, and `dotenvLoaded`
        says whether that load succeeded. Every awaited key whose variable is
        set is found with the variable's value; an unset variable is simply
        left out; `unknown` stays empty. */
    method Provide(awaited: map<string, bool>, environ: map<string, string>, dotenvLoaded: bool)
      returns (r: Result<Provided, EnvError>)
      ensures path.Some? && !dotenvLoaded ==> r == Failure(DotenvFailed(path.value))
      ensures path.None? || dotenvLoaded ==> r.Success?
      ensures r.Success? ==> r.value.unknown == map[]
      ensures r.Success? ==> forall k :: k in r.value.found <==> k in awaited && VarName(k) in environ
      ensures r.Success? ==> forall k :: k in r.value.found ==> r.value.found[k] == environ[VarName(k)]
    {
      if path.Some? && !dotenvLoaded {
        return Failure(DotenvFailed(path.value));
      }

      var keys: map<string, string> := map[];
      var todo := awaited.Keys;
      while todo != {}
        invariant todo <= awaited.Keys
        invariant keys.Keys == awaited.Keys - todo
        invariant forall k :: k in keys ==> keys[k] == VarName(k)
        decreases todo
      {
        var k :| k in todo;
        keys := keys[k := ToEnv(Key(k))];
        todo := todo - {k};
      }

      var found: map<string, string> := map[];
      var rest := keys.Keys;
      while rest != {}
        invariant rest <= keys.Keys
        invariant forall k :: k in found <==> k in keys && k !in rest && keys[k] in environ
        invariant forall k :: k in found ==> found[k] == environ[keys[k]]
        decreases rest
      {
        var original :| original in rest;
        var formatted := keys[original];
        if formatted in environ {
          found := found[original := environ[formatted]];
        }
        rest := rest - {original};
      }

      r := Success(Provided(found, map[]));
    }
  }

  /** With a prefix, the variable name is the cleaned prefix, an underscore
      and the cleaned key; without one it is the cleaned key. */
  lemma VarNameSplits(p: Provider, k: string)
    ensures p.prefix != "" ==> p.VarName(k) == ToEnv(p.prefix) + "_" + ToEnv(k)
    ensures p.prefix == "" ==> p.VarName(k) == ToEnv(k)
  {
    if p.prefix != "" {
      assert p.Key(k) == p.prefix + (['.'] + k);
      ToEnvConcat(p.prefix, ['.'] + k);
      ToEnvConcat(['.'], k);
      assert Clean(['.']) == ['.'] + Clean([]);
      assert ToEnv(['.']) == "_";
    }
  }

  /** A string made only of kept characters is left as it is by cleaning. */
  lemma {:induction false} CleanAllKept(s: string)
    requires forall i :: 0 <= i < |s| ==> Kept(s[i])
    ensures Clean(s) == s
  {
    if s != [] {
      CleanAllKept(s[1..]);
    }
  }

  /** toENV of a string of kept characters only upper-cases it and turns its
      dots into underscores. */
  lemma ToEnvOfKept(s: string, r: string)
    requires forall i :: 0 <= i < |s| ==> Kept(s[i])
    requires |r| == |s|
    requires forall i :: 0 <= i < |s| ==> r[i] == (if s[i] == '.' then '_' else UpperChar(s[i]))
    ensures ToEnv(s) == r
  {
    CleanAllKept(s);
  }

  /** Prefix "APP" and key "db.max-conns" give the variable APP_DB_MAXCONNS:
      the dash is deleted and the dots become underscores. */
  lemma VarNameExample()
    ensures Provider("APP", None).VarName("db.max-conns") == "APP_DB_MAXCONNS"
  {
    VarNameSplits(Provider("APP", None), "db.max-conns");
    ExampleSpelling();
    ToEnvConcat3("db.max", "-", "conns");
    ExamplePieces();
  }

  /** The pieces of the example, each cleaned on its own. */
  lemma ExamplePieces()
    ensures ToEnv("APP") == "APP"
    ensures ToEnv("db.max") == "DB_MAX"
    ensures ToEnv("-") == ""
    ensures ToEnv("conns") == "CONNS"
  {
    ToEnvOfKept("APP", "APP");
    ToEnvOfKept("db.max", "DB_MAX");
    ToEnvOfKept("conns", "CONNS");
    assert Clean("-") == [] + Clean([]);
  }

  /** How the example's strings are put together. */
  lemma ExampleSpelling()
    ensures "db.max-conns" == "db.max" + ("-" + "conns")
    ensures "APP" + "_" + ("DB_MAX" + "" + "CONNS") == "APP_DB_MAXCONNS"
  {
  }

  lemma ToEnvConcat3(a: string, b: string, c: string)
    ensures ToEnv(a + (b + c)) == ToEnv(a) + ToEnv(b) + ToEnv(c)
  {
    ToEnvConcat(a, b + c);
    ToEnvConcat(b, c);
  }

  /** The environment provider's type tag. */
  lemma TypeTag(p: Provider)
    ensures p.Type() == "env"
  {
  }
}
