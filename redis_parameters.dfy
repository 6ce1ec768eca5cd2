/** The Redis connector's parameters: `buildWithConfig`, which fills them from the plugin
    config, and `buildJedis`, which picks a single-node or a cluster client, gathering the
    cluster's nodes from `host:port` entries. The clients themselves are described, not run. */
module RedisParameters {
  import opened Wrappers
  import opened JavaText
  import opened JavaErrors
  import opened TypesafeConfig

  const HostKey: string := "host"
  const PortKey: string := "port"
  const AuthKey: string := "auth"
  const UserKey: string := "user"
  const KeyPatternKey: string := "keys"
  const KeyKey: string := "key"
  const DataTypeKey: string := "data_type"
  const ModeKey: string := "mode"
  const NodesKey: string := "nodes"
  const HashKeyParseModeKey: string := "hash_key_parse_mode"

  const DataTypeMessage: string := "Redis source connector only support these data types [key, hash, list, set, zset]"
  const NodeMessage: string :=
    "Invalid redis node information,redis node information must like as the following: [host:port]"
  const ConfigPackage: string := "org.apache.seatunnel.connectors.seatunnel.redis.config."

  // ----- Enumerations -----

  datatype RedisMode = Single | Cluster
  datatype HashKeyParseMode = All | Kv
  datatype RedisDataType = Key | Hash | List | Set | Zset

  function RedisModeName(m: RedisMode): string {
    match m
    case Single => "SINGLE"
    case Cluster => "CLUSTER"
  }

  function HashKeyParseModeName(m: HashKeyParseMode): string {
    match m
    case All => "ALL"
    case Kv => "KV"
  }

  function RedisDataTypeName(t: RedisDataType): string {
    match t
    case Key => "KEY"
    case Hash => "HASH"
    case List => "LIST"
    case Set => "SET"
    case Zset => "ZSET"
  }

  /** RedisMode.valueOf: the constant whose name is exactly `name`. */
  function RedisModeValueOf(name: string): (r: Result<RedisMode, Exception>)
    ensures r.Ok? ==> RedisModeName(r.value) == name
    ensures r.Err? ==> (forall m: RedisMode :: RedisModeName(m) != name) && r.error.IllegalArgumentException?
  {
    if name == "SINGLE" then Ok(Single)
    else if name == "CLUSTER" then Ok(Cluster)
    else Err(IllegalArgumentException("No enum constant " + ConfigPackage + "RedisConfig.RedisMode." + name))
  }

  function HashKeyParseModeValueOf(name: string): (r: Result<HashKeyParseMode, Exception>)
    ensures r.Ok? ==> HashKeyParseModeName(r.value) == name
    ensures r.Err? ==> (forall m: HashKeyParseMode :: HashKeyParseModeName(m) != name) && r.error.IllegalArgumentException?
  {
    if name == "ALL" then Ok(All)
    else if name == "KV" then Ok(Kv)
    else Err(IllegalArgumentException("No enum constant " + ConfigPackage + "RedisConfig.HashKeyParseMode." + name))
  }

  function RedisDataTypeValueOf(name: string): (r: Result<RedisDataType, Exception>)
    ensures r.Ok? ==> RedisDataTypeName(r.value) == name
    ensures r.Err? ==> (forall t: RedisDataType :: RedisDataTypeName(t) != name) && r.error.IllegalArgumentException?
  {
    if name == "KEY" then Ok(Key)
    else if name == "HASH" then Ok(Hash)
    else if name == "LIST" then Ok(List)
    else if name == "SET" then Ok(Set)
    else if name == "ZSET" then Ok(Zset)
    else Err(IllegalArgumentException("No enum constant " + ConfigPackage + "RedisDataType." + name))
  }

  lemma EnumNamesRoundTrip(m: RedisMode, h: HashKeyParseMode, t: RedisDataType)
    ensures RedisModeValueOf(RedisModeName(m)) == Ok(m)
    ensures HashKeyParseModeValueOf(HashKeyParseModeName(h)) == Ok(h)
    ensures RedisDataTypeValueOf(RedisDataTypeName(t)) == Ok(t)
  {
  }

  // ----- The parameters -----

  /** The fields of RedisParameters; a None is a field still null. */
  datatype Params = Params(
    host: Option<string>,
    port: int,
    auth: string,
    user: string,
    keysPattern: Option<string>,
    keyField: Option<string>,
    redisDataType: Option<RedisDataType>,
    mode: Option<RedisMode>,
    hashKeyParseMode: Option<HashKeyParseMode>,
    redisNodes: seq<string>)

  /** The field initialisers: auth and user are "", the node list is empty. */
  const Initial: Params := Params(None, 0, "", "", None, None, None, None, None, [])

  /** The first steps of buildWithConfig: host, port, then auth and user when configured. */
  function ReadEndpoint(c: Config, p: Params): (Params, Outcome<Exception>) {
    match GetString(c, HostKey)
    case Err(e) => (p, Fail(e))
    case Ok(host) =>
      var p1 := p.(host := Some(host));
      match GetInt(c, PortKey)
      case Err(e) => (p1, Fail(e))
      case Ok(port) =>
        var p2 := p1.(port := port);
        var auth := GetString(c, AuthKey);
        if HasPath(c, AuthKey) && auth.Err? then (p2, Fail(auth.error))
        else
          var p3 := if HasPath(c, AuthKey) then p2.(auth := auth.value) else p2;
          var user := GetString(c, UserKey);
          if HasPath(c, UserKey) && user.Err? then (p3, Fail(user.error))
          else (if HasPath(c, UserKey) then p3.(user := user.value) else p3, Pass)
  }

  /** The mode steps of buildWithConfig: the mode, looked up as written, SINGLE by default; the hash key parse mode,
      upper-cased, ALL by default. */
  function ReadModes(c: Config, p: Params): (Params, Outcome<Exception>) {
    var name := GetString(c, ModeKey);
    if HasPath(c, ModeKey) && name.Err? then (p, Fail(name.error))
    else
      var mode := if HasPath(c, ModeKey) then RedisModeValueOf(name.value) else Ok(Single);
      if mode.Err? then (p, Fail(mode.error))
      else
        var p1 := p.(mode := Some(mode.value));
        var hashName := GetString(c, HashKeyParseModeKey);
        if HasPath(c, HashKeyParseModeKey) && hashName.Err? then (p1, Fail(hashName.error))
        else
          var hash := if HasPath(c, HashKeyParseModeKey) then HashKeyParseModeValueOf(ToUpper(hashName.value)) else Ok(All);
          if hash.Err? then (p1, Fail(hash.error))
          else (p1.(hashKeyParseMode := Some(hash.value)), Pass)
  }

  /** The key steps of buildWithConfig: the node list, the key field and the keys pattern, each when configured. */
  function ReadKeys(c: Config, p: Params): (Params, Outcome<Exception>) {
    var nodes := GetStringList(c, NodesKey);
    if HasPath(c, NodesKey) && nodes.Err? then (p, Fail(nodes.error))
    else
      var p1 := if HasPath(c, NodesKey) then p.(redisNodes := nodes.value) else p;
      var key := GetString(c, KeyKey);
      if HasPath(c, KeyKey) && key.Err? then (p1, Fail(key.error))
      else
        var p2 := if HasPath(c, KeyKey) then p1.(keyField := Some(key.value)) else p1;
        var pattern := GetString(c, KeyPatternKey);
        if HasPath(c, KeyPatternKey) && pattern.Err? then (p2, Fail(pattern.error))
        else (if HasPath(c, KeyPatternKey) then p2.(keysPattern := Some(pattern.value)) else p2, Pass)
  }

  /** The last step of buildWithConfig: the data type, upper-cased. Only the IllegalArgumentException of valueOf is
      caught and rethrown as RuntimeException; a missing key's exception passes through. */
  function ReadDataType(c: Config, p: Params): (Params, Outcome<Exception>) {
    match GetString(c, DataTypeKey)
    case Err(e) => (p, Fail(e))
    case Ok(name) =>
      match RedisDataTypeValueOf(ToUpper(name))
      case Err(e) => (p, Fail(RuntimeException(DataTypeMessage, Some(e))))
      case Ok(t) => (p.(redisDataType := Some(t)), Pass)
  }

  function BuildSpec(c: Config, p: Params): (Params, Outcome<Exception>) {
    var (p1, o1) := ReadEndpoint(c, p);
    if o1.Fail? then (p1, o1)
    else
      var (p2, o2) := ReadModes(c, p1);
      if o2.Fail? then (p2, o2)
      else
        var (p3, o3) := ReadKeys(c, p2);
        if o3.Fail? then (p3, o3)
        else ReadDataType(c, p3)
  }

  // ----- What buildWithConfig promises -----

  /** Auth and user keep their previous values ("" when fresh) unless configured. */
  lemma AuthAndUserOnlyWhenPresent(c: Config, p: Params)
    requires ReadEndpoint(c, p).1 == Pass
    ensures var p' := ReadEndpoint(c, p).0;
      && p'.host == Some(GetString(c, HostKey).value) && p'.port == GetInt(c, PortKey).value
      && p'.auth == (if HasPath(c, AuthKey) then GetString(c, AuthKey).value else p.auth)
      && p'.user == (if HasPath(c, UserKey) then GetString(c, UserKey).value else p.user)
      && p'.(host := p.host, port := p.port, auth := p.auth, user := p.user) == p
  {
  }

  /** The mode is SINGLE without a `mode` key; otherwise it is the constant named exactly by
      the value, so a lower-case name fails with IllegalArgumentException. */
  lemma ModeLookedUpVerbatim(c: Config, p: Params)
    ensures !HasPath(c, ModeKey) && ReadModes(c, p).1 == Pass ==> ReadModes(c, p).0.mode == Some(Single)
    ensures HasPath(c, ModeKey) && ReadModes(c, p).1 == Pass ==>
      RedisModeName(ReadModes(c, p).0.mode.value) == GetString(c, ModeKey).value
    ensures HasPath(c, ModeKey) && GetString(c, ModeKey).Ok? && RedisModeValueOf(GetString(c, ModeKey).value).Err? ==>
      ReadModes(c, p) == (p, Fail(RedisModeValueOf(GetString(c, ModeKey).value).error))
  {
  }

  lemma LowerCaseModeRejected(c: Config, p: Params)
    requires HasPath(c, ModeKey) && GetString(c, ModeKey) == Ok("cluster")
    ensures ReadModes(c, p).1.Fail? && ReadModes(c, p).1.error.IllegalArgumentException?
  {
    assert RedisModeValueOf("cluster").Err?;
  }

  /** The hash key parse mode is ALL without the key, else the constant named by the
      upper-cased value. */
  lemma HashKeyParseModeUpperCased(c: Config, p: Params)
    requires ReadModes(c, p).1 == Pass
    ensures var h := ReadModes(c, p).0.hashKeyParseMode;
      && h.Some?
      && (!HasPath(c, HashKeyParseModeKey) ==> h == Some(All))
      && (HasPath(c, HashKeyParseModeKey) ==> HashKeyParseModeName(h.value) == ToUpper(GetString(c, HashKeyParseModeKey).value))
  {
  }

  /** The data type is the constant named by the upper-cased value; an unknown name becomes
      RuntimeException naming the supported types, with valueOf's exception as its cause. */
  lemma DataTypeRules(c: Config, p: Params)
    ensures ReadDataType(c, p).1 == Pass ==>
      RedisDataTypeName(ReadDataType(c, p).0.redisDataType.value) == ToUpper(GetString(c, DataTypeKey).value)
    ensures GetString(c, DataTypeKey).Ok? && RedisDataTypeValueOf(ToUpper(GetString(c, DataTypeKey).value)).Err? ==>
      ReadDataType(c, p) == (p, Fail(RuntimeException(DataTypeMessage, Some(RedisDataTypeValueOf(ToUpper(GetString(c, DataTypeKey).value)).error))))
    ensures GetString(c, DataTypeKey).Err? ==> ReadDataType(c, p) == (p, Fail(GetString(c, DataTypeKey).error))
  {
  }

  // ----- buildJedis -----

  datatype HostAndPort = HostAndPort(host: Option<string>, port: int)

  /** The client buildJedis returns: a single-node client with the auth and the ACL user it
      was given, if any, or a cluster client over a node set with its password, if any. */
  datatype Client =
    | SingleClient(node: HostAndPort, auth: Option<string>, user: Option<string>)
    | ClusterClient(nodes: set<HostAndPort>, password: Option<string>)

  /** One `host:port` entry: it must split on ':' into exactly two pieces, the second an int. */
  function ParseNode(entry: string): (r: Result<HostAndPort, Exception>)
    ensures r.Ok? ==> |Split(entry, ':')| == 2 && ParseInt(Split(entry, ':')[1]).Some? && r.value == HostAndPort(Some(Split(entry, ':')[0]), ParseInt(Split(entry, ':')[1]).value)
    ensures |Split(entry, ':')| != 2 ==> r == Err(IllegalArgumentException(NodeMessage))
    ensures |Split(entry, ':')| == 2 && ParseInt(Split(entry, ':')[1]).None? ==> r == Err(NumberFormatException(Split(entry, ':')[1]))
  {
    var splits := Split(entry, ':');
    if |splits| != 2 then Err(IllegalArgumentException(NodeMessage))
    else
      match ParseInt(splits[1])
      case None => Err(NumberFormatException(splits[1]))
      case Some(port) => Ok(HostAndPort(Some(splits[0]), port))
  }

  /** An entry written as host, ':', port is read back when the host is non-empty and has no
      ':' of its own. */
  lemma ParseNodeRoundTrip(host: string, port: nat)
    requires host != "" && ':' !in host && port <= IntMax
    ensures ParseNode(host + ":" + NatToString(port)) == Ok(HostAndPort(Some(host), port))
  {
    var digits := NatToString(port);
    assert forall i | 0 <= i < |digits| :: digits[i] != ':' by {
      assert forall i | 0 <= i < |digits| :: IsAsciiDigit(digits[i]);
    }
    assert Join([host, digits], ":") == host + ":" + digits;
    SplitOfJoin([host, digits], ':');
    ParseIntOfNatToString(port);
  }

  /** How an entry is read; the node-set fold is stated for any reader and used with
      ParseNode. */
  type NodeReader = string -> Result<HostAndPort, Exception>

  /** The node set: `nodes` with each entry added in turn; the first bad entry throws. */
  function AddNodes(read: NodeReader, nodes: set<HostAndPort>, entries: seq<string>): (r: Result<set<HostAndPort>, Exception>)
    ensures r.Ok? ==> nodes <= r.value
    decreases |entries|
  {
    if entries == [] then Ok(nodes)
    else
      match read(entries[0])
      case Err(e) => Err(e)
      case Ok(n) => AddNodes(read, nodes + {n}, entries[1..])
  }

  /** The nodes of the well-formed entries. */
  function EntryNodes(read: NodeReader, entries: seq<string>): set<HostAndPort> {
    set i | 0 <= i < |entries| && read(entries[i]).Ok? :: read(entries[i]).value
  }

  /** The node set is built iff every entry is well formed, and then it is exactly the seed
      nodes and the entries' nodes. */
  lemma {:induction false} AddNodesExact(read: NodeReader, nodes: set<HostAndPort>, entries: seq<string>)
    ensures AddNodes(read, nodes, entries).Ok? <==> forall i | 0 <= i < |entries| :: read(entries[i]).Ok?
    ensures AddNodes(read, nodes, entries).Ok? ==> AddNodes(read, nodes, entries).value == nodes + EntryNodes(read, entries)
    decreases |entries|
  {
    if entries != [] {
      assert forall i | 1 <= i < |entries| :: entries[i] == entries[1..][i - 1];
      if read(entries[0]).Ok? {
        var n := read(entries[0]).value;
        AddNodesExact(read, nodes + {n}, entries[1..]);
        if AddNodes(read, nodes, entries).Ok? {
          EntryNodesCons(read, entries);
        }
      }
    }
  }

  lemma EntryNodesCons(read: NodeReader, entries: seq<string>)
    requires entries != [] && read(entries[0]).Ok?
    ensures EntryNodes(read, entries) == {read(entries[0]).value} + EntryNodes(read, entries[1..])
  {
    var rest := EntryNodes(read, entries[1..]);
    var all := EntryNodes(read, entries);
    forall x | x in all ensures x in {read(entries[0]).value} + rest {
      var i :| 0 <= i < |entries| && read(entries[i]).Ok? && x == read(entries[i]).value;
      if i > 0 { assert entries[i] == entries[1..][i - 1]; }
    }
    forall x | x in rest ensures x in all {
      var i :| 0 <= i < |entries[1..]| && read(entries[1..][i]).Ok? && x == read(entries[1..][i]).value;
      assert entries[1..][i] == entries[i + 1];
    }
  }

  lemma EntryNodesRepeat(read: NodeReader, entries: seq<string>, i: nat)
    requires i < |entries|
    ensures EntryNodes(read, entries + [entries[i]]) == EntryNodes(read, entries)
  {
    var longer := entries + [entries[i]];
    forall x | x in EntryNodes(read, longer) ensures x in EntryNodes(read, entries) {
      var j :| 0 <= j < |longer| && read(longer[j]).Ok? && x == read(longer[j]).value;
      if j == |entries| {
        assert longer[j] == entries[i];
      } else {
        assert longer[j] == entries[j];
      }
    }
    forall x | x in EntryNodes(read, entries) ensures x in EntryNodes(read, longer) {
      var j :| 0 <= j < |entries| && read(entries[j]).Ok? && x == read(entries[j]).value;
      assert longer[j] == entries[j];
    }
  }

  /** A repeated entry adds nothing: duplicates collapse in the set. */
  lemma RepeatedEntryCollapses(read: NodeReader, nodes: set<HostAndPort>, entries: seq<string>, i: nat)
    requires i < |entries|
    ensures AddNodes(read, nodes, entries + [entries[i]]) == AddNodes(read, nodes, entries)
  {
    var longer := entries + [entries[i]];
    AddNodesExact(read, nodes, entries);
    if AddNodes(read, nodes, entries).Ok? {
      AddNodesExact(read, nodes, longer);
      assert forall j | 0 <= j < |entries| :: longer[j] == entries[j];
      assert longer[|entries|] == entries[i];
      EntryNodesRepeat(read, entries, i);
    } else {
      FailureKeepsThrough(read, nodes, entries, [entries[i]]);
    }
  }

  /** Once an entry fails, the entries after it are never read. */
  lemma {:induction false} FailureKeepsThrough(read: NodeReader, nodes: set<HostAndPort>, entries: seq<string>, more: seq<string>)
    requires AddNodes(read, nodes, entries).Err?
    ensures AddNodes(read, nodes, entries + more) == AddNodes(read, nodes, entries)
    decreases |entries|
  {
    assert (entries + more)[0] == entries[0];
    if read(entries[0]).Ok? {
      assert (entries + more)[1..] == entries[1..] + more;
      FailureKeepsThrough(read, nodes + {read(entries[0]).value}, entries[1..], more);
    }
  }

  /** StringUtils.isNotBlank for a string that is never null here. */
  function NotBlank(s: string): Option<string> {
    if IsBlank(s) then None else Some(s)
  }

  /** buildJedis on the current parameters. */
  function JedisSpec(p: Params): (r: Result<Client, Exception>)
    ensures p.mode == Some(Single) ==>
      r == Ok(SingleClient(HostAndPort(p.host, p.port), NotBlank(p.auth), NotBlank(p.user)))
    ensures p.mode == Some(Cluster) ==>
      (r.Ok? <==> AddNodes(ParseNode, {HostAndPort(p.host, p.port)}, p.redisNodes).Ok?)
    ensures p.mode == None ==> r.Err? && r.error.NullPointerException?
  {
    match p.mode
    case None => Err(NullPointerException(""))
    case Some(Single) => Ok(SingleClient(HostAndPort(p.host, p.port), NotBlank(p.auth), NotBlank(p.user)))
    case Some(Cluster) =>
      match AddNodes(ParseNode, {HostAndPort(p.host, p.port)}, p.redisNodes)
      case Err(e) => Err(e)
      case Ok(nodes) => Ok(ClusterClient(nodes, NotBlank(p.auth)))
  }

  /** A cluster client's nodes are the seed host:port and every entry's node, and its password
      is the auth exactly when the auth is not blank. */
  lemma ClusterNodesAndPassword(p: Params)
    requires p.mode == Some(Cluster) && JedisSpec(p).Ok?
    ensures var seed := HostAndPort(p.host, p.port);
      && (forall i | 0 <= i < |p.redisNodes| :: ParseNode(p.redisNodes[i]).Ok?)
      && JedisSpec(p).value.nodes == {seed} + EntryNodes(ParseNode, p.redisNodes)
      && (JedisSpec(p).value.password.Some? <==> !IsBlank(p.auth))
      && (JedisSpec(p).value.password.Some? ==> JedisSpec(p).value.password.value == p.auth)
  {
    AddNodesExact(ParseNode, {HostAndPort(p.host, p.port)}, p.redisNodes);
  }

  /** A single client gets the auth exactly when it is not blank, and the user likewise. */
  lemma SingleAuthGuards(p: Params)
    requires p.mode == Some(Single)
    ensures JedisSpec(p).value.auth.Some? <==> !IsBlank(p.auth)
    ensures JedisSpec(p).value.user.Some? <==> !IsBlank(p.user)
    ensures JedisSpec(p).value.auth.Some? ==> JedisSpec(p).value.auth.value == p.auth
    ensures JedisSpec(p).value.user.Some? ==> JedisSpec(p).value.user.value == p.user
  {
  }

  // ----- The object -----

  class RedisParametersObject {
    var host: Option<string>
    var port: int
    var auth: string
    var user: string
    var keysPattern: Option<string>
    var keyField: Option<string>
    var redisDataType: Option<RedisDataType>
    var mode: Option<RedisMode>
    var hashKeyParseMode: Option<HashKeyParseMode>
    var redisNodes: seq<string>

    function State(): Params
      reads this
    {
      Params(host, port, auth, user, keysPattern, keyField, redisDataType, mode, hashKeyParseMode, redisNodes)
    }

    constructor()
      ensures State() == Initial
    {
      host := None;
      port := 0;
      auth := "";
      user := "";
      keysPattern := None;
      keyField := None;
      redisDataType := None;
      mode := None;
      hashKeyParseMode := None;
      redisNodes := [];
    }

    method BuildWithConfig(c: Config) returns (o: Outcome<Exception>)
      modifies this
      ensures (State(), o) == BuildSpec(c, old(State()))
    {
      o := ReadEndpointFields(c);
      if o.Fail? {
        return;
      }
      o := ReadModeFields(c);
      if o.Fail? {
        return;
      }
      o := ReadKeyFields(c);
      if o.Fail? {
        return;
      }
      var dataType := GetString(c, DataTypeKey);
      if dataType.Err? {
        return Fail(dataType.error);
      }
      var t := RedisDataTypeValueOf(ToUpper(dataType.value));
      if t.Err? {
        return Fail(RuntimeException(DataTypeMessage, Some(t.error)));
      }
      redisDataType := Some(t.value);
    }

    method ReadEndpointFields(c: Config) returns (o: Outcome<Exception>)
      modifies this
      ensures (State(), o) == ReadEndpoint(c, old(State()))
    {
      var h := GetString(c, HostKey);
      if h.Err? {
        return Fail(h.error);
      }
      host := Some(h.value);
      var p := GetInt(c, PortKey);
      if p.Err? {
        return Fail(p.error);
      }
      port := p.value;
      if HasPath(c, AuthKey) {
        var a := GetString(c, AuthKey);
        if a.Err? {
          return Fail(a.error);
        }
        auth := a.value;
      }
      if HasPath(c, UserKey) {
        var u := GetString(c, UserKey);
        if u.Err? {
          return Fail(u.error);
        }
        user := u.value;
      }
      o := Pass;
    }

    method ReadModeFields(c: Config) returns (o: Outcome<Exception>)
      modifies this
      ensures (State(), o) == ReadModes(c, old(State()))
    {
      if HasPath(c, ModeKey) {
        var name := GetString(c, ModeKey);
        if name.Err? {
          return Fail(name.error);
        }
        var m := RedisModeValueOf(name.value);
        if m.Err? {
          return Fail(m.error);
        }
        mode := Some(m.value);
      } else {
        mode := Some(Single);
      }
      if HasPath(c, HashKeyParseModeKey) {
        var name := GetString(c, HashKeyParseModeKey);
        if name.Err? {
          return Fail(name.error);
        }
        var h := HashKeyParseModeValueOf(ToUpper(name.value));
        if h.Err? {
          return Fail(h.error);
        }
        hashKeyParseMode := Some(h.value);
      } else {
        hashKeyParseMode := Some(All);
      }
      o := Pass;
    }

    method ReadKeyFields(c: Config) returns (o: Outcome<Exception>)
      modifies this
      ensures (State(), o) == ReadKeys(c, old(State()))
    {
      if HasPath(c, NodesKey) {
        var nodes := GetStringList(c, NodesKey);
        if nodes.Err? {
          return Fail(nodes.error);
        }
        redisNodes := nodes.value;
      }
      if HasPath(c, KeyKey) {
        var k := GetString(c, KeyKey);
        if k.Err? {
          return Fail(k.error);
        }
        keyField := Some(k.value);
      }
      if HasPath(c, KeyPatternKey) {
        var pattern := GetString(c, KeyPatternKey);
        if pattern.Err? {
          return Fail(pattern.error);
        }
        keysPattern := Some(pattern.value);
      }
      o := Pass;
    }

    /** buildJedis: the switch on the mode, with the loop that fills the cluster's HashSet. */
    method BuildJedis() returns (r: Result<Client, Exception>)
      ensures r == JedisSpec(State())
    {
      if mode.None? {
        return Err(NullPointerException(""));
      }
      match mode.value {
        case Single =>
          var a := if IsBlank(auth) then None else Some(auth);
          var u := if IsBlank(user) then None else Some(user);
          r := Ok(SingleClient(HostAndPort(host, port), a, u));
        case Cluster =>
          var nodes: set<HostAndPort> := {HostAndPort(host, port)};
          var i := 0;
          while i < |redisNodes|
            invariant 0 <= i <= |redisNodes|
            invariant AddNodes(ParseNode, {HostAndPort(host, port)}, redisNodes) == AddNodes(ParseNode, nodes, redisNodes[i..])
          {
            assert redisNodes[i..][0] == redisNodes[i] && redisNodes[i..][1..] == redisNodes[i + 1..];
            var splits := Split(redisNodes[i], ':');
            if |splits| != 2 {
              return Err(IllegalArgumentException(NodeMessage));
            }
            var p := ParseInt(splits[1]);
            if p.None? {
              return Err(NumberFormatException(splits[1]));
            }
            nodes := nodes + {HostAndPort(Some(splits[0]), p.value)};
            i := i + 1;
          }
          r := Ok(ClusterClient(nodes, if IsBlank(auth) then None else Some(auth)));
      }
    }
  }
}
