/** ReadonlyConfig: an immutable tree of configuration values read with dotted option keys,
    with a key-only hash and map equality. */
module ReadonlyConfiguration {
  import opened Wrappers
  import opened JavaText
  import opened JavaErrors

  /** A value of the configuration tree: Java null, a nested map, or any other object (a
      string, number, boolean or list), kept as its rendering. */
  datatype ConfValue = Null | Leaf(rendered: string) | Nested(entries: map<string, ConfValue>)

  /** An option: its dotted key, its default and the conversion of a found value to the
      option's type. */
  datatype ConfigOption<T> = ConfigOption(key: string, defaultValue: T, convert: ConfValue -> T)

  const NullOptionMessage := "Option not be null."

  /** Map.get: null for an absent key. */
  function MapGet(data: map<string, ConfValue>, k: string): (v: ConfValue)
    ensures k !in data ==> v == Null
    ensures k in data ==> v == data[k]
  {
    if k in data then data[k] else Null
  }

  /** A final value: empty when null. */
  function Found(v: ConfValue): (r: Option<ConfValue>)
    ensures r.None? <==> v == Null
    ensures r.Some? ==> r.value == v
  {
    if v == Null then None else Some(v)
  }

  /** The value at a path of the tree: every segment but the last must name a nested map. */
  function Lookup(data: map<string, ConfValue>, keys: seq<string>): Option<ConfValue>
    decreases |keys|
  {
    if keys == [] then None
    else if |keys| == 1 then Found(MapGet(data, keys[0]))
    else
      match MapGet(data, keys[0])
      case Nested(m) => Lookup(m, keys[1..])
      case _ => None
  }

  /** The tree holding just `v` at the path `keys`. */
  function Nest(keys: seq<string>, v: ConfValue): (m: map<string, ConfValue>)
    requires keys != []
    ensures m.Keys == {keys[0]}
    decreases |keys|
  {
    if |keys| == 1 then map[keys[0] := v] else map[keys[0] := Nested(Nest(keys[1..], v))]
  }

  /** Looking a value up where it was nested finds it again. */
  lemma {:induction false} LookupNest(keys: seq<string>, v: ConfValue)
    requires keys != []
    ensures Lookup(Nest(keys, v), keys) == Found(v)
    decreases |keys|
  {
    if |keys| > 1 {
      LookupNest(keys[1..], v);
    }
  }

  /** A path is read segment by segment: the first segment, then the rest inside it. */
  lemma {:induction false} LookupConcat(data: map<string, ConfValue>, p: seq<string>, q: seq<string>)
    requires p != [] && q != []
    ensures Lookup(data, p + q) ==
      if Lookup(data, p).Some? && Lookup(data, p).value.Nested? then Lookup(Lookup(data, p).value.entries, q)
      else None
    decreases |p|
  {
    assert (p + q)[0] == p[0];
    if |p| == 1 {
      assert (p + q)[1..] == q;
    } else {
      assert (p + q)[1..] == p[1..] + q;
      match MapGet(data, p[0])
      case Nested(m) => LookupConcat(m, p[1..], q);
      case _ =>
    }
  }

  /** With dot-free segments and a non-empty last one, the dotted key of a path reaches the
      value nested at that path. */
  lemma DottedKeyRoundTrip(keys: seq<string>, v: ConfValue)
    requires keys != [] && keys[|keys| - 1] != ""
    requires forall i | 0 <= i < |keys| :: '.' !in keys[i]
    ensures Lookup(Nest(keys, v), Split(Join(keys, "."), '.')) == Found(v)
  {
    SplitOfJoin(keys, '.');
    LookupNest(keys, v);
  }

  /** The caller-supplied java.util.Map<String, String> that toMap(result) fills. */
  class StringMap {
    var contents: map<string, string>

    constructor(contents: map<string, string>)
      ensures this.contents == contents
    {
      this.contents := contents;
    }

    /** Map.put. */
    method Put(k: string, v: string)
      modifies this
      ensures contents == old(contents)[k := v]
    {
      contents := contents[k := v];
    }
  }

  /** Every flattened entry with its value rendered as JSON. */
  function Rendered(flat: map<string, ConfValue>, render: ConfValue -> string): (r: map<string, string>)
    ensures r.Keys == flat.Keys
    ensures forall k | k in flat :: r[k] == render(flat[k])
  {
    map k | k in flat :: render(flat[k])
  }

  /** A fixed choice from a non-empty set, so that the fold below is a function. */
  ghost function Pick(s: set<string>): string
    requires s != {}
  {
    var k :| k in s; k
  }

  /** The XOR of the hashes of every key: the order-free meaning of the hash. */
  ghost function KeyXor(hash: string -> bv32, keys: set<string>): bv32
    decreases keys
  {
    if keys == {} then 0 else var k := Pick(keys); hash(k) ^ KeyXor(hash, keys - {k})
  }

  /** Any key can be taken out first. */
  lemma {:induction false} KeyXorRemove(hash: string -> bv32, keys: set<string>, k: string)
    requires k in keys
    ensures KeyXor(hash, keys) == hash(k) ^ KeyXor(hash, keys - {k})
    decreases keys
  {
    var j := Pick(keys);
    if j != k {
      KeyXorRemove(hash, keys - {j}, k);
      KeyXorRemove(hash, keys - {k}, j);
      assert keys - {j} - {k} == keys - {k} - {j};
    }
  }

  /** `hash ^= s.hashCode()` over the keys in iteration order, for a hash function `hash`. */
  function XorFold(hash: string -> bv32, order: seq<string>): bv32 {
    if order == [] then 0 else XorFold(hash, order[..|order| - 1]) ^ hash(order[|order| - 1])
  }

  function Elements(order: seq<string>): set<string> {
    set k | k in order
  }

  predicate Enumerates(order: seq<string>, keys: set<string>) {
    && (forall i, j | 0 <= i < j < |order| :: order[i] != order[j])
    && (forall i | 0 <= i < |order| :: order[i] in keys)
    && (forall k | k in keys :: k in order)
  }

  /** Whatever order the keys come in, the fold is the XOR of their hashes. */
  lemma {:induction false} XorFoldIsKeyXor(hash: string -> bv32, order: seq<string>)
    requires forall i, j | 0 <= i < j < |order| :: order[i] != order[j]
    ensures XorFold(hash, order) == KeyXor(hash, Elements(order))
  {
    if order != [] {
      var init := order[..|order| - 1];
      XorFoldIsKeyXor(hash, init);
      KeysOfInit(order);
      KeyXorRemove(hash, Elements(order), order[|order| - 1]);
    }
  }

  /** Dropping the last of distinct keys drops just that key from their set. */
  lemma KeysOfInit(order: seq<string>)
    requires order != []
    requires forall i, j | 0 <= i < j < |order| :: order[i] != order[j]
    ensures order[|order| - 1] in Elements(order)
    ensures Elements(order) - {order[|order| - 1]} == Elements(order[..|order| - 1])
  {
    var init := order[..|order| - 1];
    forall k | k in order && k != order[|order| - 1] ensures k in init {
      var i :| 0 <= i < |order| && order[i] == k;
      assert i < |init| && init[i] == k;
    }
  }

  /** Two iteration orders of the same key set give the same hash. */
  lemma HashOrderIndependent(keys: set<string>, a: seq<string>, b: seq<string>)
    requires Enumerates(a, keys) && Enumerates(b, keys)
    ensures XorFold(StringHash, a) == XorFold(StringHash, b)
  {
    XorFoldIsKeyXor(StringHash, a);
    XorFoldIsKeyXor(StringHash, b);
    assert Elements(a) == keys == Elements(b);
  }

  class ReadonlyConfig {
    /** The nested key/value tree. */
    const confData: map<string, ConfValue>

    constructor(confData: map<string, ConfValue>)
      ensures this.confData == confData
    {
      this.confData := confData;
    }

    /** getOptional: split the key on '.', descend through nested maps, and convert a
        non-null final value. A null option is a NullPointerException. */
    method GetOptional<T>(option: Option<ConfigOption<T>>) returns (r: Result<Option<T>, Exception>)
      ensures option.None? <==> r.Err?
      ensures option.None? ==> r.error == NullPointerException(NullOptionMessage)
      ensures option.Some? ==>
        var found := Lookup(confData, Split(option.value.key, '.'));
        r.value == if found.None? then None else Some(option.value.convert(found.value))
    {
      if option.None? {
        return Err(NullPointerException(NullOptionMessage));
      }
      var keys := Split(option.value.key, '.');
      var data := confData;
      var value := Null;
      var i := 0;
      while i < |keys|
        invariant 0 <= i <= |keys|
        invariant i < |keys| ==> Lookup(confData, keys) == Lookup(data, keys[i..])
        invariant i == |keys| ==> Lookup(confData, keys) == Found(value)
        invariant i == 0 ==> value == Null && data == confData
      {
        value := MapGet(data, keys[i]);
        if i < |keys| - 1 {
          if !value.Nested? {
            return Ok(None);
          }
          assert keys[i..][1..] == keys[i + 1..];
          data := value.entries;
        }
        i := i + 1;
      }
      if value == Null {
        return Ok(None);
      }
      return Ok(Some(option.value.convert(value)));
    }

    /** get: the found value, or the option's default when there is none. */
    method Get<T>(option: Option<ConfigOption<T>>) returns (r: Result<T, Exception>)
      ensures option.None? ==> r == Err(NullPointerException(NullOptionMessage))
      ensures option.Some? ==> r.Ok?
      ensures option.Some? && Lookup(confData, Split(option.value.key, '.')).None? ==>
        r.value == option.value.defaultValue
      ensures option.Some? && Lookup(confData, Split(option.value.key, '.')).Some? ==>
        r.value == option.value.convert(Lookup(confData, Split(option.value.key, '.')).value)
    {
      var found := GetOptional(option);
      if found.Err? {
        return Err(found.error);
      }
      return Ok(found.value.GetOr(option.value.defaultValue));
    }

    /** toMap(result): every flattened entry is put into `result`, rendered as JSON; an empty
        configuration leaves `result` as it was. `flatten` and `render` stand for
        ConfigUtil.flatteningMap and ConfigUtil.convertToJsonString. */
    method ToMapInto(result: StringMap, flatten: map<string, ConfValue> -> map<string, ConfValue>,
                     render: ConfValue -> string)
      modifies result
      ensures confData == map[] ==> result.contents == old(result.contents)
      ensures confData != map[] ==>
        result.contents == old(result.contents) + Rendered(flatten(confData), render)
    {
      if confData == map[] {
        return;
      }
      var flat := flatten(confData);
      var remaining := flat.Keys;
      while remaining != {}
        invariant remaining <= flat.Keys
        invariant result.contents ==
          old(result.contents) + map k | k in flat.Keys - remaining :: render(flat[k])
        decreases remaining
      {
        var k :| k in remaining;
        result.Put(k, render(flat[k]));
        remaining := remaining - {k};
      }
      assert flat.Keys - remaining == flat.Keys;
    }

    /** toMap(): an empty map for an empty configuration, otherwise a new map filled by
        toMap(result). */
    method ToMap(flatten: map<string, ConfValue> -> map<string, ConfValue>, render: ConfValue -> string)
      returns (r: map<string, string>)
      ensures confData == map[] ==> r == map[]
      ensures confData != map[] ==> r == Rendered(flatten(confData), render)
    {
      if confData == map[] {
        return map[];
      }
      var result := new StringMap(map[]);
      ToMapInto(result, flatten, render);
      assert map[] + Rendered(flatten(confData), render) == Rendered(flatten(confData), render);
      return result.contents;
    }

    /** hashCode over the key set in its iteration order `order`: depends on the keys alone. */
    method HashCode(order: seq<string>) returns (hash: bv32)
      requires Enumerates(order, confData.Keys)
      ensures hash == KeyXor(StringHash, confData.Keys)
      ensures hash == XorFold(StringHash, order)
    {
      hash := 0;
      for i := 0 to |order|
        invariant hash == XorFold(StringHash, order[..i])
      {
        assert order[..i + 1][..i] == order[..i];
        hash := hash ^ StringHash(order[i]);
      }
      assert order[..|order|] == order;
      XorFoldIsKeyXor(StringHash, order);
      assert Elements(order) == confData.Keys;
    }

    /** equals against another ReadonlyConfig or null: equal exactly when the trees are. */
    predicate Equals(obj: ReadonlyConfig?)
      ensures Equals(obj) <==> obj != null && obj.confData == confData
    {
      this == obj || (obj != null && confData == obj.confData)
    }
  }

  /** Equal configurations have equal hashes, in any iteration order. */
  lemma EqualConfigsHashAlike(a: ReadonlyConfig, b: ReadonlyConfig, orderA: seq<string>, orderB: seq<string>)
    requires a.Equals(b)
    requires Enumerates(orderA, a.confData.Keys) && Enumerates(orderB, b.confData.Keys)
    ensures XorFold(StringHash, orderA) == XorFold(StringHash, orderB)
  {
    HashOrderIndependent(a.confData.Keys, orderA, orderB);
  }

  /** The hash ignores values: trees with the same top-level keys hash alike. */
  lemma HashIgnoresValues(a: map<string, ConfValue>, b: map<string, ConfValue>, order: seq<string>)
    requires a.Keys == b.Keys && Enumerates(order, a.Keys)
    ensures XorFold(StringHash, order) == KeyXor(StringHash, b.Keys)
  {
    XorFoldIsKeyXor(StringHash, order);
    assert Elements(order) == b.Keys;
  }
}
