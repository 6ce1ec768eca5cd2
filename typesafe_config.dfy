/** The typesafe `Config` that connectors receive, seen as the map from each leaf path
    ("a.b.c") to its value, together with the CheckConfigUtil checks built on `hasPath`.
    An object with no entries, `{}`, has no leaf below it and is kept as an `EmptyObject`
    entry at its own path. A path is present when it names a non-null leaf, an empty object,
    or an object that holds either. */
module TypesafeConfig {
  import opened Wrappers
  import opened JavaText
  import opened JavaErrors

  datatype ConfigValue =
    | Str(s: string) | Num(n: int) | Bool(b: bool) | StrList(items: seq<string>) | Null
    | EmptyObject

  type Config = map<string, ConfigValue>

  /** A value that `entrySet` reports: neither null nor an object. */
  predicate IsLeafValue(v: ConfigValue) {
    !v.Null? && !v.EmptyObject?
  }

  predicate IsLeaf(c: Config, path: string) {
    path in c && IsLeafValue(c[path])
  }

  /** Some non-null entry, leaf or empty object, lies below `path`. */
  predicate HoldsBelow(c: Config, path: string) {
    exists k | k in c :: !c[k].Null? && StartsWith(k, path + ".")
  }

  predicate IsObject(c: Config, path: string) {
    (path in c && c[path].EmptyObject?) || HoldsBelow(c, path)
  }

  /** Config.hasPath: false for a missing path and for a null value. */
  predicate HasPath(c: Config, path: string) {
    IsLeaf(c, path) || IsObject(c, path)
  }

  /** getString: a string as it is, a number or a boolean as its text; a list or an object
      is the wrong type. */
  function GetString(c: Config, path: string): (r: Result<string, Exception>)
    ensures r.Ok? ==> IsLeaf(c, path)
    ensures !HasPath(c, path) ==> r == Err(ConfigMissing(path))
    ensures IsLeaf(c, path) && c[path].Str? ==> r == Ok(c[path].s)
    ensures IsLeaf(c, path) && c[path].Num? ==> r == Ok(IntToString(c[path].n))
    ensures IsLeaf(c, path) && c[path].Bool? ==> r == Ok(if c[path].b then "true" else "false")
    ensures HasPath(c, path) && !(IsLeaf(c, path) && !c[path].StrList?) ==> r == Err(ConfigWrongType(path, "STRING"))
  {
    if IsLeaf(c, path) then
      match c[path]
      case Str(s) => Ok(s)
      case Num(n) => Ok(IntToString(n))
      case Bool(b) => Ok(if b then "true" else "false")
      case StrList(_) => Err(ConfigWrongType(path, "STRING"))
    else if IsObject(c, path) then Err(ConfigWrongType(path, "STRING"))
    else Err(ConfigMissing(path))
  }

  /** getInt / getLong: a number inside [lo, hi], or a string that parses to one; a boolean,
      a list or an object is the wrong type. */
  function GetIntegral(c: Config, path: string, lo: int, hi: int): (r: Result<int, Exception>)
    ensures r.Ok? ==> IsLeaf(c, path) && lo <= r.value <= hi
    ensures !HasPath(c, path) ==> r == Err(ConfigMissing(path))
    ensures IsLeaf(c, path) && c[path].Num? ==> (r.Ok? <==> lo <= c[path].n <= hi) && (r.Ok? ==> r.value == c[path].n)
    ensures IsLeaf(c, path) && c[path].Str? ==>
      (r.Ok? <==> ParseIntegral(c[path].s, lo, hi).Some?) && (r.Ok? ==> r.value == ParseIntegral(c[path].s, lo, hi).value)
    ensures HasPath(c, path) && !(IsLeaf(c, path) && (c[path].Num? || c[path].Str?)) ==> r == Err(ConfigWrongType(path, "NUMBER"))
  {
    if IsLeaf(c, path) then
      match c[path]
      case Num(n) => if lo <= n <= hi then Ok(n) else Err(ConfigWrongType(path, "NUMBER"))
      case Str(s) =>
        (match ParseIntegral(s, lo, hi)
         case Some(v) => Ok(v)
         case None => Err(ConfigWrongType(path, "NUMBER")))
      case Bool(_) => Err(ConfigWrongType(path, "NUMBER"))
      case StrList(_) => Err(ConfigWrongType(path, "NUMBER"))
    else if IsObject(c, path) then Err(ConfigWrongType(path, "NUMBER"))
    else Err(ConfigMissing(path))
  }

  function GetInt(c: Config, path: string): Result<int, Exception> {
    GetIntegral(c, path, IntMin, IntMax)
  }

  function GetLong(c: Config, path: string): Result<int, Exception> {
    GetIntegral(c, path, LongMin, LongMax)
  }

  /** getBoolean: a boolean, or one of the strings typesafe reads as one ("true", "yes",
      "on" and "false", "no", "off", exactly); a number, a list or an object is the wrong type. */
  function GetBoolean(c: Config, path: string): (r: Result<bool, Exception>)
    ensures r.Ok? ==> IsLeaf(c, path)
    ensures IsLeaf(c, path) && c[path].Bool? ==> r == Ok(c[path].b)
    ensures IsLeaf(c, path) && c[path].Str? ==>
      (r.Ok? <==> c[path].s in ["true", "yes", "on", "false", "no", "off"])
      && (r.Ok? ==> r.value == (c[path].s in ["true", "yes", "on"]))
    ensures HasPath(c, path) && !(IsLeaf(c, path) && (c[path].Bool? || c[path].Str?)) ==> r == Err(ConfigWrongType(path, "BOOLEAN"))
    ensures !HasPath(c, path) ==> r == Err(ConfigMissing(path))
  {
    if IsLeaf(c, path) then
      match c[path]
      case Bool(b) => Ok(b)
      case Str(s) =>
        if s == "true" || s == "yes" || s == "on" then Ok(true)
        else if s == "false" || s == "no" || s == "off" then Ok(false)
        else Err(ConfigWrongType(path, "BOOLEAN"))
      case Num(_) => Err(ConfigWrongType(path, "BOOLEAN"))
      case StrList(_) => Err(ConfigWrongType(path, "BOOLEAN"))
    else if IsObject(c, path) then Err(ConfigWrongType(path, "BOOLEAN"))
    else Err(ConfigMissing(path))
  }

  /** getStringList: the list at `path`; anything else present is the wrong type. */
  function GetStringList(c: Config, path: string): (r: Result<seq<string>, Exception>)
    ensures r.Ok? <==> IsLeaf(c, path) && c[path].StrList?
    ensures r.Ok? ==> r.value == c[path].items
    ensures r.Err? ==> r.error == (if HasPath(c, path) then ConfigWrongType(path, "LIST") else ConfigMissing(path))
  {
    if IsLeaf(c, path) && c[path].StrList? then Ok(c[path].items)
    else if HasPath(c, path) then Err(ConfigWrongType(path, "LIST"))
    else Err(ConfigMissing(path))
  }

  /** Every leaf of `c` whose path starts with `prefix`, under the rest of its path. */
  function StripPrefix(c: Config, prefix: string): (sub: Config)
    ensures forall k | k in sub :: prefix + k in c && sub[k] == c[prefix + k]
    ensures forall k | k in c && StartsWith(k, prefix) :: k[|prefix|..] in sub && sub[k[|prefix|..]] == c[k]
  {
    assert forall k1, k2 | k1 in c && k2 in c && StartsWith(k1, prefix) && StartsWith(k2, prefix)
        && k1[|prefix|..] == k2[|prefix|..] :: k1 == k2 by {
      forall k1, k2 | k1 in c && k2 in c && StartsWith(k1, prefix) && StartsWith(k2, prefix)
        && k1[|prefix|..] == k2[|prefix|..]
        ensures k1 == k2
      {
        assert k1 == prefix + k1[|prefix|..];
        assert k2 == prefix + k2[|prefix|..];
      }
    }
    var sub := map k | k in c && StartsWith(k, prefix) :: k[|prefix|..] := c[k];
    assert forall k | k in c && StartsWith(k, prefix) :: k == prefix + k[|prefix|..];
    sub
  }

  /** Config.getConfig: the object at `path`; an empty object gives an empty config. */
  function GetConfig(c: Config, path: string): (r: Result<Config, Exception>)
    ensures r.Ok? <==> !IsLeaf(c, path) && IsObject(c, path)
    ensures r.Ok? ==> r.value == StripPrefix(c, path + ".")
    ensures path in c && c[path].EmptyObject? && (forall k | k in c :: !StartsWith(k, path + "."))
            ==> r == Ok(map[])
  {
    if IsLeaf(c, path) then Err(ConfigWrongType(path, "OBJECT"))
    else if IsObject(c, path) then Ok(StripPrefix(c, path + "."))
    else Err(ConfigMissing(path))
  }

  /** A path is present exactly when some non-null entry lies at it or below it. */
  lemma HasPathRules(c: Config, path: string)
    ensures HasPath(c, path) <==>
      exists k | k in c :: !c[k].Null? && (k == path || StartsWith(k, path + "."))
  {
    if HasPath(c, path) && !HoldsBelow(c, path) {
      assert path in c && !c[path].Null?;
    }
  }

  /** An empty object `{}` is present and a valid parameter; getConfig reads it as an empty
      config, and the leaf getters refuse it as the wrong type. */
  lemma EmptyObjectRead(c: Config, path: string)
    requires path in c && c[path].EmptyObject?
    ensures HasPath(c, path) && IsValidParam(c, path) && !IsLeaf(c, path)
    ensures GetString(c, path) == Err(ConfigWrongType(path, "STRING"))
    ensures GetBoolean(c, path) == Err(ConfigWrongType(path, "BOOLEAN"))
    ensures GetLong(c, path) == Err(ConfigWrongType(path, "NUMBER"))
    ensures GetStringList(c, path) == Err(ConfigWrongType(path, "LIST"))
    ensures (forall k | k in c :: !StartsWith(k, path + ".")) ==> GetConfig(c, path) == Ok(map[])
  {
  }

  /** Config.withValue: `path` now holds `v`, replacing whatever was at or below it. */
  function WithValue(c: Config, path: string, v: ConfigValue): (r: Config)
    ensures path in r && r[path] == v
    ensures forall k | k in c && k != path && !StartsWith(k, path + ".") :: k in r && r[k] == c[k]
    ensures forall k | k in r && k != path :: k in c && r[k] == c[k]
  {
    (map k | k in c && !StartsWith(k, path + ".") :: c[k])[path := v]
  }

  /** String.valueOf(value.unwrapped()). */
  function Unwrapped(v: ConfigValue): string {
    match v
    case Str(s) => s
    case Num(n) => IntToString(n)
    case Bool(b) => if b then "true" else "false"
    case StrList(items) => "[" + Join(items, ", ") + "]"
    case Null => "null"
    case EmptyObject => "{}"
  }

  /** TypesafeConfigUtils.extractSubConfig(config, prefix, false) read back through entrySet:
      every non-null leaf under `prefix`, keyed by the rest of its path, as a string. An empty
      object is not a leaf, so it is not carried over. */
  function ExtractSubConfig(c: Config, prefix: string): (props: map<string, string>)
    ensures forall k | k in props :: prefix + k in c && IsLeafValue(c[prefix + k])
                                     && props[k] == Unwrapped(c[prefix + k])
    ensures forall k | k in c && IsLeafValue(c[k]) && StartsWith(k, prefix) :: k[|prefix|..] in props
  {
    var leaves := StripPrefix(c, prefix);
    assert forall k | k in c && StartsWith(k, prefix) :: leaves[k[|prefix|..]] == c[k];
    map k | k in leaves && IsLeafValue(leaves[k]) :: Unwrapped(leaves[k])
  }

  // ----- CheckConfigUtil -----

  /** What a failed check reports: the keys that are all required and missing, or the keys of
      which at least one was required. */
  datatype CheckMessage = AllRequired(missing: seq<string>) | OneRequired(params: seq<string>)

  datatype CheckResult = Success | Failure(messages: seq<CheckMessage>) {
    predicate IsSuccess() { Success? }

    /** CheckResult.getMsg: the failures' texts joined by ",", empty on success. */
    function Msg(): string {
      if Success? then "" else Join(MessageTexts(messages), ",")
    }
  }

  function MessageText(m: CheckMessage): string {
    match m
    case AllRequired(missing) => "please specify [" + Join(missing, ",") + "] as non-empty"
    case OneRequired(params) => "please specify at least one config of [" + Join(params, ",") + "] as non-empty"
  }

  function MessageTexts(ms: seq<CheckMessage>): (ts: seq<string>)
    ensures |ts| == |ms|
  {
    if ms == [] then [] else [MessageText(ms[0])] + MessageTexts(ms[1..])
  }

  /** CheckConfigUtil.isValidParam: present, and not an empty list. */
  predicate IsValidParam(c: Config, param: string) {
    HasPath(c, param) && !(IsLeaf(c, param) && c[param].StrList? && c[param].items == [])
  }

  /** The parameters that are not valid, in the order given. */
  function MissingParams(c: Config, params: seq<string>): (m: seq<string>)
    ensures |m| <= |params|
    ensures forall i | 0 <= i < |m| :: m[i] in params && !IsValidParam(c, m[i])
    ensures forall i | 0 <= i < |params| :: !IsValidParam(c, params[i]) ==> params[i] in m
    ensures |m| == |params| <==> forall i | 0 <= i < |params| :: !IsValidParam(c, params[i])
  {
    if params == [] then []
    else
      var rest := MissingParams(c, params[1..]);
      assert forall i | 1 <= i < |params| :: params[i] == params[1..][i - 1];
      if IsValidParam(c, params[0]) then rest else [params[0]] + rest
  }

  function CheckAllExists(c: Config, params: seq<string>): (r: CheckResult)
    ensures r.IsSuccess() <==> forall i | 0 <= i < |params| :: IsValidParam(c, params[i])
    ensures !r.IsSuccess() ==> r == Failure([AllRequired(MissingParams(c, params))])
  {
    var m := MissingParams(c, params);
    if m == [] then Success
    else
      assert m[0] in params && !IsValidParam(c, m[0]);
      Failure([AllRequired(m)])
  }

  function CheckAtLeastOneExists(c: Config, params: seq<string>): (r: CheckResult)
    ensures r.IsSuccess() <==> params == [] || exists i | 0 <= i < |params| :: IsValidParam(c, params[i])
    ensures !r.IsSuccess() ==> r == Failure([OneRequired(params)])
  {
    if params == [] then Success
    else
      var m := MissingParams(c, params);
      if |m| == |params| then
        MissingParamsAll(c, params);
        Failure([OneRequired(m)])
      else Success
  }

  /** When no parameter is valid, all of them are missing, in order. */
  lemma {:induction false} MissingParamsAll(c: Config, params: seq<string>)
    requires forall i | 0 <= i < |params| :: !IsValidParam(c, params[i])
    ensures MissingParams(c, params) == params
  {
    if params != [] {
      assert forall i | 0 <= i < |params[1..]| :: params[1..][i] == params[i + 1];
      MissingParamsAll(c, params[1..]);
    }
  }

  /** CheckConfigUtil.mergeCheckResults: successful only if every result is; otherwise one
      failure carrying the failures' messages in order. */
  function MergeCheckResults(results: seq<CheckResult>): (r: CheckResult)
    ensures r.IsSuccess() <==> forall i | 0 <= i < |results| :: results[i].IsSuccess()
    ensures !r.IsSuccess() ==> r.messages == MergedMessages(results)
  {
    if forall i | 0 <= i < |results| :: results[i].IsSuccess() then Success
    else Failure(MergedMessages(results))
  }

  function MergedMessages(results: seq<CheckResult>): seq<CheckMessage> {
    if results == [] then []
    else (if results[0].Failure? then results[0].messages else []) + MergedMessages(results[1..])
  }

  /** Two merged results report the first one's failures, then the second's. */
  lemma MergedPair(a: CheckResult, b: CheckResult)
    ensures MergedMessages([a, b]) == (if a.Failure? then a.messages else []) + (if b.Failure? then b.messages else [])
  {
    var second := if b.Failure? then b.messages else [];
    assert [a, b][1..] == [b];
    assert [b][1..] == [];
    assert MergedMessages([b]) == second + [];
    assert second + [] == second;
  }

  /** A merged "all of" and "at least one of" check reports the failures of each, in order. */
  lemma MergedAllAndOne(c: Config, required: seq<string>, oneOf: seq<string>)
    ensures var a := CheckAllExists(c, required);
      var b := CheckAtLeastOneExists(c, oneOf);
      !MergeCheckResults([a, b]).IsSuccess() ==>
        MergeCheckResults([a, b]) == Failure(
          (if a.IsSuccess() then [] else [AllRequired(MissingParams(c, required))]) +
          (if b.IsSuccess() then [] else [OneRequired(oneOf)]))
  {
    MergedPair(CheckAllExists(c, required), CheckAtLeastOneExists(c, oneOf));
  }
}
