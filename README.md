# zerocfg core in Dafny

This project models the core of zerocfg, a Go configuration library. The
core has three parts:

- **The document flatteners** of the JSON and YAML providers. Each walks a
  decoded document depth-first and joins keys into dotted paths. Every node
  the walk visits is written to one of two flat maps: `found` when its path
  is awaited, `unknown` when it is not, except an unawaited mapping, which
  the walk descends into instead. The JSON walk also skips nulls, so they go
  into neither map. When a dotted key collides with a nested path, several
  visited nodes share one path and only the last one written stays.
- **The environment provider.** It maps every awaited key to an environment
  variable name and looks the variable up.
- **The typed value cells** for booleans, strings, durations, IP addresses,
  URLs and maps. Each cell has a constructor that stores a default, a `Set`
  that parses text into the storage or fails, and a fixed type tag.

## Flatteners

The module `Document` holds the decoded tree and the flattening rule shared
by both providers. A `Node` is `Null`, a `Scalar`, an `Arr` or an `Obj`. An
`Obj` lists its entries in one iteration order of the Go map.

The rule is specified twice:

- `Walk` / `Visit` give the exact sequence of writes the Go loop makes for
  that order. `Apply` folds those writes into a map, so the last write wins.
- `Reached` says which (path, node) pairs the walk visits, whatever the
  order.

`WalkEmits` proves the two agree. A write happens exactly when the walk
reaches the node and the rule sends it to that map. From this,
`FlattenFound` and `FlattenUnknown` describe both maps in order-free terms.
The methods `FlattenDFS` of `JsonParse.Parser` and `YamlParse.Parser` are the
Go loops. Each loop body, once the entry's path is computed, is the method
`VisitEntry`, which mirrors `Visit`. Their maps go in and come back out,
where Go passes them by reference. They are proved to leave exactly
`Apply(..., Walk(...))` and `Apply(..., Visit(...))`.

The flatteners are not deterministic. A key containing a dot can collide
with a nested path, as in `{"a.b": 1, "a": {"b": 2}}`. The value that ends up
in `found` then depends on the map's iteration order, and
`CollidingPathsDependOnOrder` exhibits both outcomes.

## Environment provider

`EnvParse.ToEnv` deletes every character outside `[A-Za-z0-9.]`, upper-cases
the rest and turns dots into underscores. `Provider.VarName` prepends the
prefix. `Provider.Provide` takes two parameters:

- the environment, as it stands after the optional .env file was loaded, as
  a map;
- whether that load succeeded, as a flag.

## Value cells

Each value cell is a class. Its storage is a field, which its constructor
and `Set` write.

- Library parsers are function parameters returning `Option`: the URL parser,
  the IP parser and formatter, the duration parser and the JSON decoders.
  None stands for the parser's error.
- The map cell keeps the Go map as a reference, a `Table`, because `Set`
  empties the live map in place before decoding into it.

## Model

| member | source | states |
|---|---|---|
| Sequences.ParseEach | z_dur.go:52-59 | the parsed list exists iff every element parses; it then has the input's length, and element i is the parse of string i |
| Document.Walk | json/parse.go:127-150 | the writes the loop makes for the first n entries of a mapping, in order; every one of them follows the emission rule |
| Document.Visit | json/parse.go:129-148 | the writes made for one value, tested in the source's order (null skip, awaited, mapping, leaf); every one follows the emission rule |
| Document.WalkPaths | json/parse.go:133-136 | every path written is the joined path of one of the entries walked (the key itself at the top level, "p." then the key below a prefix p) or lies below it; below a prefix p every path starts with "p." |
| Document.VisitPaths | json/parse.go:133-144 | every path written for a value at path p is p itself or, for a non-empty p, starts with "p." (at the empty path, as an empty top-level key gives, nothing is joined) |
| Document.WalkEmits | json/parse.go:127-149 | a write appears in the walk of a mapping iff the walk reaches its (path, node) and the rule (skip null, awaited to found, non-mapping to unknown) sends it there |
| Document.VisitEmits | json/parse.go:128-148 | the same iff for the writes made at one value: the null test, the awaited test, the descent into a mapping, the leaf write |
| Document.EmissionsFollowRule | json/parse.go:138-148 | every write of a whole walk is reached; found gets only awaited paths; unknown gets only unawaited paths of non-mapping nodes |
| Document.AwaitedValueIsOneWrite | json/parse.go:138-141 | an awaited value, a mapping included, is written once and whole to found, with nothing written below it |
| Document.UnawaitedMappingIsDescended | json/parse.go:143-146 | an unawaited mapping's writes are exactly those of its entries one level down; no write is of the mapping itself |
| Document.ApplyEntry | json/parse.go:139-148 | after a sequence of map writes, a key is present iff it was before or some write names it, and its value comes from such a write, otherwise from before |
| Document.FlattenFound | json/parse.go:121-149 | a key is in found iff it is awaited and the walk reaches an unskipped node at that path; the value is that node stringified |
| Document.FlattenUnknown | json/parse.go:121-149 | a key is in unknown iff it is not awaited and the walk reaches an unskipped non-mapping node there; the value is that node stringified |
| Document.FlattenPartition | yaml/parse.go:63-75 | found keys are all awaited, unknown keys never are, so the two maps are disjoint for every iteration order |
| Document.FoundIsTheReachedNode | json/parse.go:138-141 | when exactly one node is reached at an awaited path, found holds that node stringified |
| JsonParse.Parser.constructor | json/parse.go:21-23 | the parser holds the given source URL and no awaited keys |
| JsonParse.Parser.Type | json/parse.go:25-30 | "json" exactly when no URL is set, otherwise "json[" + URL text + "]" |
| JsonParse.Parser.Parse | json/parse.go:81-97 | no URL gives empty maps and no error; a failed fetch is an error naming the URL with the parser untouched; otherwise conv and awaited are stored and the data outcome of ParseData follows |
| JsonParse.Parser.ParseData | json/parse.go:99-119 | empty data, undecodable data and a non-object root are the three errors; an object root gives the flattened found and unknown with nulls skipped |
| JsonParse.Parser.Flatten | json/parse.go:121-125 | fresh maps filled by the walk from the root equal FoundOf / UnknownOf |
| JsonParse.Parser.FlattenDFS | json/parse.go:127-150 | the loop over one mapping, recursing into unawaited mappings, leaves the incoming maps updated by exactly the walk's writes, in order |
| JsonParse.Parser.VisitEntry | json/parse.go:128-148 | one entry's step leaves the incoming maps updated by exactly the writes made for that value: none for null, found for an awaited path, the nested walk for a mapping, unknown otherwise |
| JsonParse.NullNeverEmitted | json/parse.go:129-131 | every found or unknown value is the stringified form of a reached non-null node |
| JsonParse.NullPathAbsent | json/parse.go:129-131 | a path whose only reached value is null is in neither map, even when awaited |
| JsonParse.CollidingPathsDependOnOrder | json/parse.go:128-139 | for {"a.b":1,"a":{"b":2}} with "a.b" awaited, the two iteration orders leave 2 and 1 in found |
| YamlParse.Parser.constructor | yaml/parse.go:17-19 | the parser holds the given path and no awaited keys |
| YamlParse.Parser.Parse | yaml/parse.go:25-35 | a read failure is an error with the parser untouched; otherwise conv and awaited are stored and ParseData's outcome follows |
| YamlParse.Parser.ParseData | yaml/parse.go:37-46 | a decode error, or a root that is not a mapping, is an error; an empty document gives empty maps; a mapping gives the flattened maps without null skipping |
| YamlParse.Parser.Flatten | yaml/parse.go:48-54 | fresh maps filled by the walk from the root equal FoundOf / UnknownOf without null skipping |
| YamlParse.Parser.FlattenDFS | yaml/parse.go:56-77 | the loop over one mapping leaves the incoming maps updated by exactly the walk's writes, nulls included |
| YamlParse.Parser.VisitEntry | yaml/parse.go:63-75 | one entry's step leaves the incoming maps updated by exactly the writes made for that value, with no null test: found for an awaited path, the nested walk for a mapping, unknown otherwise |
| YamlParse.NullIsEmitted | yaml/parse.go:57-75 | a null at a reached path lands in found when awaited and in unknown otherwise, as conv(null) |
| YamlParse.SameWalkWithoutNulls | yaml/parse.go:56-77 | on a document with no null, the YAML walk makes exactly the JSON walk's writes |
| YamlParse.TypeTag | yaml/parse.go:21-23 | the tag is "yaml" |
| EnvParse.ToEnv | env/parse.go:90-96 | the name holds only upper-case letters, digits and underscores, one for each letter, digit or dot of the input |
| EnvParse.CleanKeeps | env/parse.go:91 | cleaning keeps only letters, digits and dots, and keeps every one of them |
| EnvParse.CleanConcat | env/parse.go:91 | cleaning a concatenation cleans each part |
| EnvParse.ToEnvConcat | env/parse.go:90-96 | the variable name of a concatenation is the concatenation of the names |
| EnvParse.ToEnvIgnoresCase | env/parse.go:92 | an upper-cased key names the same variable |
| EnvParse.CleanIdempotent | env/parse.go:91 | cleaning a cleaned string changes nothing |
| EnvParse.ToEnvIgnoresDeleted | env/parse.go:91-93 | a key and its cleaned form name the same variable, so characters cleaning deletes do not matter |
| EnvParse.Provider.Key | env/parse.go:50-56 | without a prefix the key is unchanged; with one it is the prefix, a dot, then the key |
| EnvParse.CleanAllKept | env/parse.go:91 | a string of letters, digits and dots is left unchanged by cleaning |
| EnvParse.ToEnvOfKept | env/parse.go:90-96 | for such a string the name is its upper-casing with dots turned into underscores |
| EnvParse.VarNameSplits | env/parse.go:50-56 | with a prefix the name is ToEnv(prefix) + "_" + ToEnv(key); without one it is ToEnv(key) |
| EnvParse.VarNameExample | env/parse.go:50-56 | prefix "APP" and key "db.max-conns" give APP_DB_MAXCONNS |
| EnvParse.Provider.Provide | env/parse.go:59-83 | a failed .env load is an error naming the path; otherwise a key is found iff it is awaited and its variable is set, with that variable's value, and unknown is empty |
| EnvParse.TypeTag | env/parse.go:46-48 | the tag is "env" |
| BoolValue.StrToBool | z_bool.go:40-49 | true iff the lower-cased text is "", "true", "1" or "yes"; false iff it is "false", "0" or "no"; rejected iff it is neither |
| BoolValue.StrToBoolIgnoresCase | z_bool.go:40-41 | two texts that differ only in letter case read as the same boolean or are both rejected |
| BoolValue.StrToBoolRoundTrip | z_bool.go:40-45 | "true" reads as true and "false" as false |
| BoolValue.StrToBoolExamples | z_bool.go:40-49 | "" and "YES" are true, "No" and "0" are false, "maybe" and "on" are rejected |
| BoolValue.BoolCell.constructor | z_bool.go:11-14 | the storage holds the default |
| BoolValue.BoolCell.Set | z_bool.go:16-25 | succeeds iff the text is in the vocabulary; stores its boolean, or leaves the value unchanged on failure |
| BoolValue.BoolSliceCell.constructor | z_bool.go:53-56 | the storage holds the default |
| BoolValue.TypeTags | z_bool.go:62-64 | the slice's tag is "bools", the plural of the scalar's "bool" (lines 27-29) |
| StringValue.StringCell.constructor | z_string.go:7-10 | the storage holds the default |
| StringValue.StringCell.Set | z_string.go:12-15 | never fails and stores the text unchanged |
| StringValue.StringSliceCell.constructor | z_string.go:32-35 | the storage holds the default |
| StringValue.SetTwice | z_string.go:12-15 | after two sets the last text is stored, and setting the current value again keeps it |
| StringValue.TypeTags | z_string.go:41-43 | the slice's tag is "strings", the plural of the scalar's "string" (lines 17-19) |
| DurationValue.DurationCell.constructor | z_dur.go:11-14 | the storage holds the default |
| DurationValue.DurationCell.Set | z_dur.go:16-23 | succeeds iff the text parses; stores the parsed duration, or leaves the value unchanged |
| DurationValue.DurationSliceCell.constructor | z_dur.go:40-43 | the storage holds the default |
| DurationValue.DurationSliceCell.Set | z_dur.go:45-63 | all or nothing: succeeds iff the list decodes and every element parses, then stores the parsed elements in order; otherwise the slice is unchanged |
| DurationValue.TypeTags | z_dur.go:65-67 | the slice's tag is "durations", the plural of the scalar's "duration" (lines 25-27) |
| IpValue.IPDefault | z_ip.go:75-82 | the declaration is rejected iff the default is non-empty and does not parse; otherwise the default is the parse result, nil for "" |
| IpValue.IPsDefaults | z_ip.go:84-95 | rejected iff some non-empty element does not parse, naming the first such element; otherwise one entry per element, each as IPDefault gives it |
| IpValue.IpCell.constructor | z_ip.go:10-13 | the storage holds the default |
| IpValue.IpCell.Set | z_ip.go:15-23 | succeeds iff the text parses; stores the address, or leaves the value unchanged |
| IpValue.IpSliceCell.constructor | z_ip.go:38-41 | the storage holds the default |
| IpValue.IpSliceCell.Set | z_ip.go:43-60 | all or nothing: succeeds iff the list decodes and every element parses; then entry i is the address of element i; otherwise the slice is unchanged |
| IpValue.IpCell.String | z_ip.go:29-34 | a nil IP prints as "<nil>", a present one as net.IP.String prints it |
| IpValue.RoundTrip | z_ip.go:29-34 | a nil IP prints as "<nil>", which the parser rejects, so Set(String()) fails on it; for a present address the round trip is a hypothesis |
| IpValue.TypeTags | z_ip.go:62-64 | the slice's tag is "ips", the plural of the scalar's "ip" (lines 25-27) |
| UrlValue.Default | z_url.go:41-50 | an empty default starts absent; a non-empty default is rejected iff it does not parse, otherwise it is the parsed URL |
| UrlValue.FromText | z_url.go:17-28 | empty text gives absent; other text fails iff it does not parse, otherwise gives the parsed URL |
| UrlValue.RoundTrip | z_url.go:34-39 | an absent URL prints "" and "" gives absent again; a present URL with non-empty text comes back when url.Parse reads that text back |
| UrlValue.EmptyPrintingUrlResets | z_url.go:18-20 | a present URL that prints as "" does not survive the round trip: its text resets the cell to absent |
| UrlValue.UrlCell.String | z_url.go:34-39 | an absent URL prints as "", a present one as its text |
| UrlValue.UrlCell.constructor | z_url.go:12-15 | the storage holds the default |
| UrlValue.UrlCell.Set | z_url.go:17-28 | fails iff the text is non-empty and does not parse, leaving the value unchanged; otherwise stores absent or the parsed URL |
| UrlValue.TypeTag | z_url.go:30-32 | the tag is "url" |
| MapValue.ObjectMapKeys | z_map.go:19 | the decoded map has exactly the keys of the object |
| MapValue.ObjectMapLastWins | z_map.go:19 | each key of the decoded map holds the value of its last occurrence in the object |
| MapValue.MapCell.constructor | z_map.go:9-12 | the storage holds the default map reference |
| MapValue.MapCell.Set | z_map.go:14-20 | the live map is emptied in place; an object refills that map (or a new one, if nil); null makes the storage nil; failure keeps the emptied map, without restoring it |
| MapValue.Register | z_map.go:31-35 | the caller receives the map the storage holds at registration |
| MapValue.NilDefaultMissesSet | z_map.go:31-35 | with a nil default, after an object is set, the caller's map is still nil while the option holds the entries |
| MapValue.LiveMapCell.constructor | z_map.go:9-12 | the corrected cell stores the default map, or a new empty map when the default is nil |
| MapValue.RegisterLive | z_map.go:31-35 | with the corrected cell the caller receives the very map the storage holds |
| MapValue.LiveMapCell.Set | z_map.go:14-20 | the corrected cell keeps one live map: Set empties it, then fills it with the decoded object, or leaves it empty on null or failure |
| MapValue.NilDefaultSeesSet | z_map.go:31-35 | with the corrected cell and a nil default, the caller's map shows the entries that Set stored |
| MapValue.TypeTag | z_map.go:22-24 | the tag is "map" |

## Left out

- Fetching is I/O. This covers fetchJSONData (HTTP GET, files, scheme
  dispatch), os.ReadFile for YAML and the godotenv load of the .env file. They
  are function parameters (`fetch`, `read`) or the `environ` / `dotenvLoaded`
  parameters of `Provide`.
- The library parsers are parameters: encoding/json, yaml.v3, url.Parse,
  net.ParseIP, net.IP.String and time.ParseDuration. So are the stringify
  callback `conv` and the JSON list decoders. Number-literal preservation
  (UseNumber) and duplicate-key handling belong to these decoders.
- strings.ToLower and strings.ToUpper are modelled on ASCII letters. No
  non-ASCII character maps into the boolean vocabulary. After cleaning, an
  environment name is ASCII.
- The `New`, `WithPrefix` and `WithPath` option constructors are left out.
  The `Any` registry, merging and precedence of providers are not part of
  this model either. Parsers and providers are built directly from their
  fields.
- The Set methods of the bool and string slices are left out. They call
  json.Unmarshal straight into the live slice, whose partial-fill behaviour
  on a type error belongs to the decoder.
- A URL is represented by its printed text; its fields are not modelled.
  The unused `ptr` allocated in `URL` is left out.
- The nil-receiver branch of the IP `String` is left out. A nil storage
  pointer cannot arise from the constructor.
- IpValue.RoundTrip: that a present address reads back from its text is
  assumed of net.ParseIP and net.IP.String (a `requires`), not derived.
  Only the nil half is derived.
- UrlValue.RoundTrip: that a present URL reads back from its text is assumed
  of url.Parse and URL.String, not derived. A present URL that prints as ""
  (url.Parse("#") gives one) is excluded. EmptyPrintingUrlResets shows that
  its round trip fails.
- The source locations are not shared. The JSON parser reads its URL through
  a `**url.URL` and the YAML parser its path through a `*string`, both
  filled by option cells. Here each is copied into a plain field with no
  link to a `UrlCell` or `StringCell`, so later changes to the option are
  not seen.
- The YAML `Parse` dereferences its path pointer, so it panics when `New`
  was given nil. The plain `path` field cannot express that panic.
- YAML mappings with non-string keys, which yaml.v3 decodes as leaves, are
  not distinguished. They appear only as leaves here.
- `found` / `unknown` are Go maps shared by reference during the walk. Here
  they are values threaded through the recursion. Returned nil maps and
  empty maps are not distinguished.
- 64-bit bounds of time.Duration are not modelled; durations are integers.
- JsonParse.Parser.Type: a present URL prints as its stored text, assuming
  url.URL.String gives back that text.

Three behaviours of the code are worth stating outright:

- Unawaited mappings produce no summary entry in `unknown`; only their
  leaves appear.
- No path is treated specially for being an ancestor of an awaited key.
- A map `Set("")` empties the map and then fails, because "" is not valid
  JSON. It does not reset the map.

## Findings

| source | as written | input that shows it | evidently intended | confidence | as-written member | corrected member |
|---|---|---|---|---|---|---|
| z_map.go:31-35 | Map returns the map value the storage held at registration. With a nil default, a later Set lets json.Unmarshal allocate a new map, stored only in the option's storage. | Map("limits", nil, ...), then Set(`{"max":10}`): the caller's map stays nil | the map handed to the caller shows the configured entries | medium, not executed | MapValue.NilDefaultMissesSet | MapValue.NilDefaultSeesSet |
