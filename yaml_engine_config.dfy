/** The engine's YAML configuration reader: it walks the DOM tree of the configuration file,
    rejects a repeated top-level section, and sets the engine, slot-service, checkpoint and
    checkpoint-storage settings from the recognised child elements. */
module YamlEngineConfig {
  import opened Wrappers
  import opened JavaText
  import opened JavaErrors

  /** A DOM element: its cleaned node name, its text content and its child elements. */
  datatype Node = Node(name: string, text: string, children: seq<Node>)

  /** The keys of the ServerConfigOptions the reader compares child names with. */
  datatype OptionKeys = OptionKeys(
    backupCount: string, printExecutionInfoInterval: string, slotService: string,
    checkpoint: string, dynamicSlot: string, slotNum: string, checkpointInterval: string,
    checkpointTimeout: string, maxConcurrent: string, tolerableFailure: string,
    checkpointStorage: string, storageType: string, maxRetained: string)

  /** Within each element, the keys compared at that level differ. */
  predicate DistinctLevels(k: OptionKeys) {
    && k.dynamicSlot != k.slotNum
    && k.storageType != k.maxRetained
    && |{k.checkpointInterval, k.checkpointTimeout, k.maxConcurrent, k.tolerableFailure,
         k.checkpointStorage}| == 5
    && |{k.backupCount, k.printExecutionInfoInterval, k.slotService, k.checkpoint}| == 4
  }

  datatype SlotServiceConfig = SlotServiceConfig(dynamicSlot: bool, slotNum: int)

  datatype CheckpointStorageConfig = CheckpointStorageConfig(storage: string, maxRetainedCheckpoints: int)

  datatype CheckpointConfig = CheckpointConfig(
    checkpointInterval: int, checkpointTimeout: int, maxConcurrentCheckpoints: int,
    tolerableFailureCheckpoints: int, storage: CheckpointStorageConfig)

  /** What `new SlotServiceConfig()`, `new CheckpointConfig()` and
      `new CheckpointStorageConfig()` start from. */
  datatype Defaults = Defaults(
    slotService: SlotServiceConfig, checkpoint: CheckpointConfig, storage: CheckpointStorageConfig)

  /** The fields of the EngineConfig the reader sets. */
  datatype EngineSettings = EngineSettings(
    backupCount: int, printExecutionInfoInterval: int, slotService: SlotServiceConfig,
    checkpoint: CheckpointConfig)

  /** DomConfigHelper.getIntegerValue: Integer.parseInt of the text, and an
      InvalidConfigurationException naming the parameter otherwise. */
  function IntegerValue(parameter: string, text: string): (r: Result<int, Exception>)
    ensures r.Ok? <==> ParseInt(text).Some?
    ensures r.Ok? ==> r.value == ParseInt(text).value
    ensures r.Err? ==> r.error.InvalidConfigurationException?
  {
    match ParseInt(text)
    case Some(v) => Ok(v)
    case None =>
      Err(InvalidConfigurationException("Invalid integer value for parameter " + parameter + ": " + text))
  }

  /** DomConfigHelper.getBooleanValue: Boolean.parseBoolean, true exactly for "true" in any
      letter case. */
  function BooleanValue(text: string): (b: bool)
    ensures b <==> ToUpper(text) == "TRUE"
  {
    ToUpper(text) == "TRUE"
  }

  // ----- Running the child elements of one element through a step -----

  /** A loop over child elements that applies `step` to each in turn and stops at the first
      exception: the state reached and how the loop ended. */
  function Run<S>(step: (S, Node) -> Result<S, Exception>, s: S, nodes: seq<Node>): (S, Outcome<Exception>)
    decreases |nodes|
  {
    if nodes == [] then (s, Pass)
    else
      match step(s, nodes[0])
      case Err(e) => (s, Fail(e))
      case Ok(t) => Run(step, t, nodes[1..])
  }

  function AsResult<S>(r: (S, Outcome<Exception>)): Result<S, Exception> {
    if r.1.Pass? then Ok(r.0) else Err(r.1.error)
  }

  /** One more child is one more step after the others. */
  lemma {:induction false} RunSnoc<S>(step: (S, Node) -> Result<S, Exception>, s: S, nodes: seq<Node>, n: Node)
    ensures Run(step, s, nodes + [n]) ==
      var (t, o) := Run(step, s, nodes);
      var r := step(t, n);
      if o.Fail? then (t, o)
      else if r.Err? then (t, Fail(r.error))
      else (r.value, Pass)
    decreases |nodes|
  {
    if nodes == [] {
      assert [n][1..] == [];
    } else {
      assert (nodes + [n])[1..] == nodes[1..] + [n];
      match step(s, nodes[0])
      case Err(_) =>
      case Ok(t) => RunSnoc(step, t, nodes[1..], n);
    }
  }

  /** A child that the step leaves alone can be dropped. */
  lemma {:induction false} RunSkips<S>(step: (S, Node) -> Result<S, Exception>, s: S, a: seq<Node>, n: Node, b: seq<Node>)
    requires forall t :: step(t, n) == Ok(t)
    ensures Run(step, s, a + [n] + b) == Run(step, s, a + b)
    decreases |a|
  {
    if a == [] {
      assert [n] + b == a + [n] + b;
      assert ([n] + b)[1..] == b && a + b == b;
    } else {
      assert (a + [n] + b)[1..] == a[1..] + [n] + b;
      assert (a + b)[1..] == a[1..] + b;
      match step(s, a[0])
      case Err(_) =>
      case Ok(t) => RunSkips(step, t, a[1..], n, b);
    }
  }

  // ----- The loop bodies of the four parse methods -----

  function SlotStep(k: OptionKeys, c: SlotServiceConfig, n: Node): Result<SlotServiceConfig, Exception> {
    if n.name == k.dynamicSlot then Ok(c.(dynamicSlot := BooleanValue(n.text)))
    else if n.name == k.slotNum then
      match IntegerValue(k.slotNum, n.text)
      case Err(e) => Err(e)
      case Ok(v) => Ok(c.(slotNum := v))
    else Ok(c)
  }

  function StorageStep(k: OptionKeys, c: CheckpointStorageConfig, n: Node): Result<CheckpointStorageConfig, Exception> {
    if n.name == k.storageType then Ok(c.(storage := n.text))
    else if n.name == k.maxRetained then
      match IntegerValue(k.maxRetained, n.text)
      case Err(e) => Err(e)
      case Ok(v) => Ok(c.(maxRetainedCheckpoints := v))
    else Ok(c)
  }

  function SlotStepper(k: OptionKeys): (SlotServiceConfig, Node) -> Result<SlotServiceConfig, Exception> {
    (c, n) => SlotStep(k, c, n)
  }

  function StorageStepper(k: OptionKeys): (CheckpointStorageConfig, Node) -> Result<CheckpointStorageConfig, Exception> {
    (c, n) => StorageStep(k, c, n)
  }

  /** parseSlotServiceConfig and parseCheckpointStorageConfig as values. */
  function SlotOf(k: OptionKeys, d: Defaults, node: Node): Result<SlotServiceConfig, Exception> {
    AsResult(Run(SlotStepper(k), d.slotService, node.children))
  }

  function StorageOf(k: OptionKeys, d: Defaults, node: Node): Result<CheckpointStorageConfig, Exception> {
    AsResult(Run(StorageStepper(k), d.storage, node.children))
  }

  function CheckpointStep(k: OptionKeys, d: Defaults, c: CheckpointConfig, n: Node): Result<CheckpointConfig, Exception> {
    if n.name == k.checkpointInterval then
      match IntegerValue(k.checkpointInterval, n.text)
      case Err(e) => Err(e)
      case Ok(v) => Ok(c.(checkpointInterval := v))
    else if n.name == k.checkpointTimeout then
      match IntegerValue(k.checkpointTimeout, n.text)
      case Err(e) => Err(e)
      case Ok(v) => Ok(c.(checkpointTimeout := v))
    else if n.name == k.maxConcurrent then
      match IntegerValue(k.maxConcurrent, n.text)
      case Err(e) => Err(e)
      case Ok(v) => Ok(c.(maxConcurrentCheckpoints := v))
    else if n.name == k.tolerableFailure then
      match IntegerValue(k.tolerableFailure, n.text)
      case Err(e) => Err(e)
      case Ok(v) => Ok(c.(tolerableFailureCheckpoints := v))
    else if n.name == k.checkpointStorage then
      match StorageOf(k, d, n)
      case Err(e) => Err(e)
      case Ok(st) => Ok(c.(storage := st))
    else Ok(c)
  }

  function CheckpointStepper(k: OptionKeys, d: Defaults): (CheckpointConfig, Node) -> Result<CheckpointConfig, Exception> {
    (c, n) => CheckpointStep(k, d, c, n)
  }

  function CheckpointOf(k: OptionKeys, d: Defaults, node: Node): Result<CheckpointConfig, Exception> {
    AsResult(Run(CheckpointStepper(k, d), d.checkpoint, node.children))
  }

  function EngineStep(k: OptionKeys, d: Defaults, s: EngineSettings, n: Node): Result<EngineSettings, Exception> {
    if n.name == k.backupCount then
      match IntegerValue(k.backupCount, n.text)
      case Err(e) => Err(e)
      case Ok(v) => Ok(s.(backupCount := v))
    else if n.name == k.printExecutionInfoInterval then
      match IntegerValue(k.printExecutionInfoInterval, n.text)
      case Err(e) => Err(e)
      case Ok(v) => Ok(s.(printExecutionInfoInterval := v))
    else if n.name == k.slotService then
      match SlotOf(k, d, n)
      case Err(e) => Err(e)
      case Ok(c) => Ok(s.(slotService := c))
    else if n.name == k.checkpoint then
      match CheckpointOf(k, d, n)
      case Err(e) => Err(e)
      case Ok(c) => Ok(s.(checkpoint := c))
    else Ok(s)
  }

  function EngineStepper(k: OptionKeys, d: Defaults): (EngineSettings, Node) -> Result<EngineSettings, Exception> {
    (s, n) => EngineStep(k, d, s, n)
  }

  /** A child after a clean run is one more step. */
  lemma StepAfter<S>(step: (S, Node) -> Result<S, Exception>, s: S, a: seq<Node>, n: Node)
    requires Run(step, s, a).1.Pass?
    ensures Run(step, s, a + [n]) ==
      var t := Run(step, s, a).0;
      if step(t, n).Err? then (t, Fail(step(t, n).error))
      else (step(t, n).value, Pass)
  {
    RunSnoc(step, s, a, n);
  }

  /** Each slot-service key sets exactly its own field, so a repeated key is won by its last
      occurrence. */
  lemma SlotKeysSetOwnField(k: OptionKeys, c: SlotServiceConfig, n: Node)
    requires DistinctLevels(k)
    ensures n.name == k.dynamicSlot ==> SlotStep(k, c, n) == Ok(c.(dynamicSlot := BooleanValue(n.text)))
    ensures n.name == k.slotNum ==>
      SlotStep(k, c, n) == if ParseInt(n.text).Some? then Ok(c.(slotNum := ParseInt(n.text).value))
                           else IntegerValue(k.slotNum, n.text).PropagateFailure()
    ensures n.name != k.dynamicSlot && n.name != k.slotNum ==> SlotStep(k, c, n) == Ok(c)
  {
  }

  /** Each storage key sets exactly its own field. */
  lemma StorageKeysSetOwnField(k: OptionKeys, c: CheckpointStorageConfig, n: Node)
    requires DistinctLevels(k)
    ensures n.name == k.storageType ==> StorageStep(k, c, n) == Ok(c.(storage := n.text))
    ensures n.name == k.maxRetained ==>
      StorageStep(k, c, n) == if ParseInt(n.text).Some? then Ok(c.(maxRetainedCheckpoints := ParseInt(n.text).value))
                              else IntegerValue(k.maxRetained, n.text).PropagateFailure()
    ensures n.name != k.storageType && n.name != k.maxRetained ==> StorageStep(k, c, n) == Ok(c)
  {
  }

  /** Each checkpoint key sets exactly its own field. */
  lemma CheckpointKeysSetOwnField(k: OptionKeys, d: Defaults, c: CheckpointConfig, n: Node)
    requires DistinctLevels(k)
    ensures n.name == k.checkpointInterval && ParseInt(n.text).Some? ==>
      CheckpointStep(k, d, c, n) == Ok(c.(checkpointInterval := ParseInt(n.text).value))
    ensures n.name == k.checkpointTimeout && ParseInt(n.text).Some? ==>
      CheckpointStep(k, d, c, n) == Ok(c.(checkpointTimeout := ParseInt(n.text).value))
    ensures n.name == k.maxConcurrent && ParseInt(n.text).Some? ==>
      CheckpointStep(k, d, c, n) == Ok(c.(maxConcurrentCheckpoints := ParseInt(n.text).value))
    ensures n.name == k.tolerableFailure && ParseInt(n.text).Some? ==>
      CheckpointStep(k, d, c, n) == Ok(c.(tolerableFailureCheckpoints := ParseInt(n.text).value))
    ensures n.name == k.checkpointStorage && StorageOf(k, d, n).Ok? ==>
      CheckpointStep(k, d, c, n) == Ok(c.(storage := StorageOf(k, d, n).value))
    ensures n.name !in {k.checkpointInterval, k.checkpointTimeout, k.maxConcurrent,
                        k.tolerableFailure, k.checkpointStorage} ==>
      CheckpointStep(k, d, c, n) == Ok(c)
  {
    assert k.checkpointInterval !in {k.checkpointTimeout, k.maxConcurrent, k.tolerableFailure, k.checkpointStorage};
    assert k.checkpointTimeout !in {k.maxConcurrent, k.tolerableFailure, k.checkpointStorage};
    assert k.maxConcurrent !in {k.tolerableFailure, k.checkpointStorage};
  }

  /** Each engine key sets exactly its own field. */
  lemma EngineKeysSetOwnField(k: OptionKeys, d: Defaults, s: EngineSettings, n: Node)
    requires DistinctLevels(k)
    ensures n.name == k.backupCount && ParseInt(n.text).Some? ==>
      EngineStep(k, d, s, n) == Ok(s.(backupCount := ParseInt(n.text).value))
    ensures n.name == k.printExecutionInfoInterval && ParseInt(n.text).Some? ==>
      EngineStep(k, d, s, n) == Ok(s.(printExecutionInfoInterval := ParseInt(n.text).value))
    ensures n.name == k.slotService && SlotOf(k, d, n).Ok? ==>
      EngineStep(k, d, s, n) == Ok(s.(slotService := SlotOf(k, d, n).value))
    ensures n.name == k.checkpoint && CheckpointOf(k, d, n).Ok? ==>
      EngineStep(k, d, s, n) == Ok(s.(checkpoint := CheckpointOf(k, d, n).value))
    ensures n.name !in {k.backupCount, k.printExecutionInfoInterval, k.slotService, k.checkpoint} ==>
      EngineStep(k, d, s, n) == Ok(s)
  {
    assert k.backupCount !in {k.printExecutionInfoInterval, k.slotService, k.checkpoint};
    assert k.printExecutionInfoInterval !in {k.slotService, k.checkpoint};
  }

  /** An unrecognised child of the slot-service element changes nothing. */
  lemma SlotIgnoresUnrecognized(k: OptionKeys, c: SlotServiceConfig, a: seq<Node>, n: Node, b: seq<Node>)
    requires n.name != k.dynamicSlot && n.name != k.slotNum
    ensures Run(SlotStepper(k), c, a + [n] + b) == Run(SlotStepper(k), c, a + b)
  {
    RunSkips(SlotStepper(k), c, a, n, b);
  }

  /** An unrecognised child of the checkpoint-storage element changes nothing. */
  lemma StorageIgnoresUnrecognized(k: OptionKeys, c: CheckpointStorageConfig, a: seq<Node>, n: Node, b: seq<Node>)
    requires n.name != k.storageType && n.name != k.maxRetained
    ensures Run(StorageStepper(k), c, a + [n] + b) == Run(StorageStepper(k), c, a + b)
  {
    RunSkips(StorageStepper(k), c, a, n, b);
  }

  /** An unrecognised child of the checkpoint element changes nothing. */
  lemma CheckpointIgnoresUnrecognized(k: OptionKeys, d: Defaults, c: CheckpointConfig, a: seq<Node>, n: Node, b: seq<Node>)
    requires n.name !in {k.checkpointInterval, k.checkpointTimeout, k.maxConcurrent,
                         k.tolerableFailure, k.checkpointStorage}
    ensures Run(CheckpointStepper(k, d), c, a + [n] + b) == Run(CheckpointStepper(k, d), c, a + b)
  {
    RunSkips(CheckpointStepper(k, d), c, a, n, b);
  }

  /** An unrecognised child of the engine element changes nothing. */
  lemma EngineIgnoresUnrecognized(k: OptionKeys, d: Defaults, s: EngineSettings, a: seq<Node>, n: Node, b: seq<Node>)
    requires n.name !in {k.backupCount, k.printExecutionInfoInterval, k.slotService, k.checkpoint}
    ensures Run(EngineStepper(k, d), s, a + [n] + b) == Run(EngineStepper(k, d), s, a + b)
  {
    RunSkips(EngineStepper(k, d), s, a, n, b);
  }

  /** A repeated slot count is won by the last one. */
  lemma SlotNumLastWins(k: OptionKeys, c: SlotServiceConfig, a: seq<Node>, n: Node, v: int)
    requires DistinctLevels(k) && n.name == k.slotNum && ParseInt(n.text) == Some(v)
    requires Run(SlotStepper(k), c, a).1.Pass?
    ensures Run(SlotStepper(k), c, a + [n]) == (Run(SlotStepper(k), c, a).0.(slotNum := v), Pass)
  {
    StepAfter(SlotStepper(k), c, a, n);
  }

  // ----- buildConfig -----

  /** How the reader tells sections apart: SeaTunnelConfigSections.ENGINE.isEqual and
      SeaTunnelConfigSections.canOccurMultipleTimes. */
  datatype Sections = Sections(isEngine: string -> bool, canOccurMultipleTimes: string -> bool)

  datatype BuildState = BuildState(engine: EngineSettings, occurrenceSet: set<string>)

  function DuplicateMessage(name: string): string {
    "Duplicate '" + name + "' definition found in the configuration."
  }

  /** buildConfig over the top-level elements: a name already recorded is rejected; a section
      other than the engine is passed over unrecorded; the engine section is parsed (keeping
      the settings made before an exception) and then recorded unless it may repeat. */
  function Build(k: OptionKeys, d: Defaults, sec: Sections, st: BuildState, nodes: seq<Node>): (BuildState, Outcome<Exception>)
    decreases |nodes|
  {
    if nodes == [] then (st, Pass)
    else
      var name := nodes[0].name;
      if name in st.occurrenceSet then
        (st, Fail(InvalidConfigurationException(DuplicateMessage(name))))
      else if !sec.isEngine(name) then Build(k, d, sec, st, nodes[1..])
      else
        var (engine, o) := Run(EngineStepper(k, d), st.engine, nodes[0].children);
        if o.Fail? then (st.(engine := engine), o)
        else
          var recorded := if sec.canOccurMultipleTimes(name) then st.occurrenceSet
                          else st.occurrenceSet + {name};
          Build(k, d, sec, BuildState(engine, recorded), nodes[1..])
  }

  /** The recorded names only grow, and only with engine sections that may not repeat. */
  lemma {:induction false} BuildRecordsOnlyEngine(k: OptionKeys, d: Defaults, sec: Sections, st: BuildState, nodes: seq<Node>)
    ensures st.occurrenceSet <= Build(k, d, sec, st, nodes).0.occurrenceSet
    ensures forall name | name in Build(k, d, sec, st, nodes).0.occurrenceSet - st.occurrenceSet ::
      sec.isEngine(name) && !sec.canOccurMultipleTimes(name)
    decreases |nodes|
  {
    if nodes != [] {
      var name := nodes[0].name;
      if name !in st.occurrenceSet {
        if !sec.isEngine(name) {
          BuildRecordsOnlyEngine(k, d, sec, st, nodes[1..]);
        } else {
          var (engine, o) := Run(EngineStepper(k, d), st.engine, nodes[0].children);
          if o.Pass? {
            var recorded := if sec.canOccurMultipleTimes(name) then st.occurrenceSet
                            else st.occurrenceSet + {name};
            BuildRecordsOnlyEngine(k, d, sec, BuildState(engine, recorded), nodes[1..]);
          }
        }
      }
    }
  }

  /** While only engine sections are recorded, a section other than the engine anywhere in
      the file changes nothing: it is neither parsed, recorded nor rejected. */
  lemma {:induction false} NonEngineSectionIgnored(k: OptionKeys, d: Defaults, sec: Sections, st: BuildState, a: seq<Node>, n: Node, b: seq<Node>)
    requires forall name | name in st.occurrenceSet :: sec.isEngine(name)
    requires !sec.isEngine(n.name)
    ensures Build(k, d, sec, st, a + [n] + b) == Build(k, d, sec, st, a + b)
    decreases |a|
  {
    if a == [] {
      assert a + [n] + b == [n] + b && ([n] + b)[1..] == b && a + b == b;
    } else {
      assert (a + [n] + b)[0] == a[0] && (a + b)[0] == a[0];
      assert (a + [n] + b)[1..] == a[1..] + [n] + b;
      assert (a + b)[1..] == a[1..] + b;
      var name := a[0].name;
      if name !in st.occurrenceSet {
        if !sec.isEngine(name) {
          NonEngineSectionIgnored(k, d, sec, st, a[1..], n, b);
        } else {
          var (engine, o) := Run(EngineStepper(k, d), st.engine, a[0].children);
          if o.Pass? {
            var recorded := if sec.canOccurMultipleTimes(name) then st.occurrenceSet
                            else st.occurrenceSet + {name};
            NonEngineSectionIgnored(k, d, sec, BuildState(engine, recorded), a[1..], n, b);
          }
        }
      }
    }
  }

  /** Two engine sections in a row, the first parsing cleanly: the second is rejected exactly
      when the engine section may not repeat. */
  lemma SecondEngineSection(k: OptionKeys, d: Defaults, sec: Sections, st: BuildState, a: Node, b: Node)
    requires a.name == b.name && sec.isEngine(a.name) && a.name !in st.occurrenceSet
    requires Run(EngineStepper(k, d), st.engine, a.children).1.Pass?
    ensures !sec.canOccurMultipleTimes(a.name) ==>
      Build(k, d, sec, st, [a, b]).1 == Fail(InvalidConfigurationException(DuplicateMessage(a.name)))
    ensures sec.canOccurMultipleTimes(a.name) ==>
      Build(k, d, sec, st, [a, b]).1 == Run(EngineStepper(k, d), Run(EngineStepper(k, d), st.engine, a.children).0, b.children).1
  {
    assert [a, b][1..] == [b];
    assert [b][1..] == [];
    var (engine, o) := Run(EngineStepper(k, d), st.engine, a.children);
    var recorded := if sec.canOccurMultipleTimes(a.name) then st.occurrenceSet
                    else st.occurrenceSet + {a.name};
    var next := BuildState(engine, recorded);
    assert Build(k, d, sec, st, [a, b]) == Build(k, d, sec, next, [b]);
    if sec.canOccurMultipleTimes(a.name) {
      var (e2, o2) := Run(EngineStepper(k, d), engine, b.children);
      if o2.Pass? {
        assert Build(k, d, sec, next, [b]) == Build(k, d, sec, next.(engine := e2), []);
      }
    }
  }

  // ----- The configuration file of the parser test -----

  function Leaf(name: string, text: string): Node { Node(name, text, []) }

  function FixtureSlot(k: OptionKeys): Node {
    Node(k.slotService, "", [Leaf(k.dynamicSlot, "false"), Leaf(k.slotNum, "5")])
  }

  function FixtureStorage(k: OptionKeys): Node {
    Node(k.checkpointStorage, "", [Leaf(k.storageType, "test"), Leaf(k.maxRetained, "3")])
  }

  function FixtureCheckpoint(k: OptionKeys): Node {
    Node(k.checkpoint, "", [Leaf(k.checkpointInterval, "6000"), Leaf(k.checkpointTimeout, "7000"),
                            Leaf(k.maxConcurrent, "5"), Leaf(k.tolerableFailure, "2"), FixtureStorage(k)])
  }

  function FixtureEngine(k: OptionKeys, engine: string): Node {
    Node(engine, "", [Leaf(k.backupCount, "1"), Leaf(k.printExecutionInfoInterval, "2"),
                      FixtureSlot(k), FixtureCheckpoint(k)])
  }

  lemma FixtureSmallNumbers()
    ensures ParseInt("1") == Some(1) && ParseInt("2") == Some(2)
    ensures ParseInt("3") == Some(3) && ParseInt("5") == Some(5)
  {
    ParseIntOfNatToString(1);
    ParseIntOfNatToString(2);
    ParseIntOfNatToString(3);
    ParseIntOfNatToString(5);
    assert NatToString(1) == "1" && NatToString(2) == "2" && NatToString(3) == "3" && NatToString(5) == "5";
  }

  /** A digit followed by three zeros reads as that many thousands. */
  lemma ParseThousands(d: nat)
    requires 1 <= d < 10
    ensures ParseInt([DigitChar(d), '0', '0', '0']) == Some(d * 1000)
  {
    var s := [DigitChar(d), '0', '0', '0'];
    assert s[..3] == [DigitChar(d), '0', '0'];
    assert s[..3][..2] == [DigitChar(d), '0'];
    assert s[..3][..2][..1] == [DigitChar(d)];
    assert DigitOf('0') == 0;
    assert DigitsValue([DigitChar(d)]) == d;
    assert DigitsValue([DigitChar(d), '0']) == d * 10;
    assert DigitsValue([DigitChar(d), '0', '0']) == d * 100;
    assert DigitsValue(s) == d * 1000;
  }

  lemma FixtureThousands()
    ensures ParseInt("6000") == Some(6000) && ParseInt("7000") == Some(7000)
  {
    ParseThousands(6);
    assert [DigitChar(6), '0', '0', '0'] == "6000";
    ParseThousands(7);
    assert [DigitChar(7), '0', '0', '0'] == "7000";
  }

  lemma FixtureSlotParsed(k: OptionKeys, d: Defaults)
    requires DistinctLevels(k)
    ensures SlotOf(k, d, FixtureSlot(k)) == Ok(SlotServiceConfig(false, 5))
  {
    FixtureSmallNumbers();
    var nodes := FixtureSlot(k).children;
    var c0 := d.slotService;
    var c1 := c0.(dynamicSlot := false);
    var c2 := SlotServiceConfig(false, 5);
    SlotKeysSetOwnField(k, c0, nodes[0]);
    SlotKeysSetOwnField(k, c1, nodes[1]);
    var step := SlotStepper(k);
    assert Run(step, c2, nodes[2..]) == (c2, Pass);
    assert Run(step, c1, nodes[1..]) == Run(step, c2, nodes[2..]);
    assert Run(step, c0, nodes) == Run(step, c1, nodes[1..]);
  }

  lemma FixtureStorageParsed(k: OptionKeys, d: Defaults)
    requires DistinctLevels(k)
    ensures StorageOf(k, d, FixtureStorage(k)) == Ok(CheckpointStorageConfig("test", 3))
  {
    FixtureSmallNumbers();
    var nodes := FixtureStorage(k).children;
    var c0 := d.storage;
    var c1 := c0.(storage := "test");
    var c2 := CheckpointStorageConfig("test", 3);
    StorageKeysSetOwnField(k, c0, nodes[0]);
    StorageKeysSetOwnField(k, c1, nodes[1]);
    var step := StorageStepper(k);
    assert Run(step, c2, nodes[2..]) == (c2, Pass);
    assert Run(step, c1, nodes[1..]) == Run(step, c2, nodes[2..]);
    assert Run(step, c0, nodes) == Run(step, c1, nodes[1..]);
  }

  lemma FixtureCheckpointParsed(k: OptionKeys, d: Defaults)
    requires DistinctLevels(k)
    ensures CheckpointOf(k, d, FixtureCheckpoint(k)) ==
      Ok(CheckpointConfig(6000, 7000, 5, 2, CheckpointStorageConfig("test", 3)))
  {
    FixtureSmallNumbers();
    FixtureThousands();
    FixtureStorageParsed(k, d);
    var nodes := FixtureCheckpoint(k).children;
    var c0 := d.checkpoint;
    var c1 := c0.(checkpointInterval := 6000);
    var c2 := c1.(checkpointTimeout := 7000);
    var c3 := c2.(maxConcurrentCheckpoints := 5);
    var c4 := c3.(tolerableFailureCheckpoints := 2);
    var c5 := c4.(storage := CheckpointStorageConfig("test", 3));
    CheckpointKeysSetOwnField(k, d, c0, nodes[0]);
    CheckpointKeysSetOwnField(k, d, c1, nodes[1]);
    CheckpointKeysSetOwnField(k, d, c2, nodes[2]);
    CheckpointKeysSetOwnField(k, d, c3, nodes[3]);
    CheckpointKeysSetOwnField(k, d, c4, nodes[4]);
    var step := CheckpointStepper(k, d);
    assert Run(step, c5, nodes[5..]) == (c5, Pass);
    assert Run(step, c4, nodes[4..]) == Run(step, c5, nodes[5..]);
    assert Run(step, c3, nodes[3..]) == Run(step, c4, nodes[4..]);
    assert Run(step, c2, nodes[2..]) == Run(step, c3, nodes[3..]);
    assert Run(step, c1, nodes[1..]) == Run(step, c2, nodes[2..]);
    assert Run(step, c0, nodes) == Run(step, c1, nodes[1..]);
  }

  lemma FixtureEngineParsed(k: OptionKeys, d: Defaults, s: EngineSettings, engine: string)
    requires DistinctLevels(k)
    ensures Run(EngineStepper(k, d), s, FixtureEngine(k, engine).children) ==
      (EngineSettings(1, 2, SlotServiceConfig(false, 5),
                      CheckpointConfig(6000, 7000, 5, 2, CheckpointStorageConfig("test", 3))), Pass)
  {
    FixtureSmallNumbers();
    FixtureSlotParsed(k, d);
    FixtureCheckpointParsed(k, d);
    var nodes := FixtureEngine(k, engine).children;
    var s1 := s.(backupCount := 1);
    var s2 := s1.(printExecutionInfoInterval := 2);
    var s3 := s2.(slotService := SlotServiceConfig(false, 5));
    var s4 := s3.(checkpoint := CheckpointConfig(6000, 7000, 5, 2, CheckpointStorageConfig("test", 3)));
    EngineKeysSetOwnField(k, d, s, nodes[0]);
    EngineKeysSetOwnField(k, d, s1, nodes[1]);
    EngineKeysSetOwnField(k, d, s2, nodes[2]);
    EngineKeysSetOwnField(k, d, s3, nodes[3]);
    var step := EngineStepper(k, d);
    assert Run(step, s4, nodes[4..]) == (s4, Pass);
    assert Run(step, s3, nodes[3..]) == Run(step, s4, nodes[4..]);
    assert Run(step, s2, nodes[2..]) == Run(step, s3, nodes[3..]);
    assert Run(step, s1, nodes[1..]) == Run(step, s2, nodes[2..]);
    assert Run(step, s, nodes) == Run(step, s1, nodes[1..]);
  }

  /** The parser test: a file with one engine section yields backup count 1, print interval 2,
      a static slot service with 5 slots, checkpoints every 6000 with timeout 7000, at most 5
      concurrent and 2 tolerated failures, stored in "test" keeping 3, whatever the defaults. */
  lemma ParserTestFixture(k: OptionKeys, d: Defaults, sec: Sections, s: EngineSettings, engine: string)
    requires DistinctLevels(k) && sec.isEngine(engine)
    ensures var (st, o) := Build(k, d, sec, BuildState(s, {}), [FixtureEngine(k, engine)]);
      o == Pass && st.engine ==
        EngineSettings(1, 2, SlotServiceConfig(false, 5),
                       CheckpointConfig(6000, 7000, 5, 2, CheckpointStorageConfig("test", 3)))
  {
    FixtureEngineParsed(k, d, s, engine);
    assert [FixtureEngine(k, engine)][1..] == [];
  }

  /** The caller's EngineConfig, updated in place by the setters. */
  class EngineConfig {
    var backupCount: int
    var printExecutionInfoInterval: int
    var slotServiceConfig: SlotServiceConfig
    var checkpointConfig: CheckpointConfig

    function Settings(): EngineSettings
      reads this
    {
      EngineSettings(backupCount, printExecutionInfoInterval, slotServiceConfig, checkpointConfig)
    }

    constructor(s: EngineSettings)
      ensures Settings() == s
    {
      backupCount := s.backupCount;
      printExecutionInfoInterval := s.printExecutionInfoInterval;
      slotServiceConfig := s.slotService;
      checkpointConfig := s.checkpoint;
    }
  }

  class DomConfigProcessor {
    const keys: OptionKeys
    const defaults: Defaults
    const sections: Sections
    /** config.getEngineConfig(). */
    const engineConfig: EngineConfig
    var occurrenceSet: set<string>

    function State(): BuildState
      reads this, engineConfig
    {
      BuildState(engineConfig.Settings(), occurrenceSet)
    }

    constructor(keys: OptionKeys, defaults: Defaults, sections: Sections, engineConfig: EngineConfig)
      ensures this.keys == keys && this.defaults == defaults && this.sections == sections
      ensures this.engineConfig == engineConfig && occurrenceSet == {}
    {
      this.keys := keys;
      this.defaults := defaults;
      this.sections := sections;
      this.engineConfig := engineConfig;
      occurrenceSet := {};
    }

    method BuildConfig(root: Node) returns (o: Outcome<Exception>)
      modifies this, engineConfig
      ensures (State(), o) == Build(keys, defaults, sections, old(State()), root.children)
    {
      var nodes := root.children;
      var i := 0;
      while i < |nodes|
        invariant 0 <= i <= |nodes|
        invariant Build(keys, defaults, sections, old(State()), nodes) == Build(keys, defaults, sections, State(), nodes[i..])
      {
        var node := nodes[i];
        var nodeName := node.name;
        assert nodes[i..][0] == node && nodes[i..][1..] == nodes[i + 1..];
        if nodeName in occurrenceSet {
          return Fail(InvalidConfigurationException(DuplicateMessage(nodeName)));
        }
        var skip, handled := HandleNode(node, nodeName);
        if handled.Fail? {
          return handled;
        }
        if skip {
          i := i + 1;
          continue;
        }
        if !sections.canOccurMultipleTimes(nodeName) {
          occurrenceSet := occurrenceSet + {nodeName};
        }
        i := i + 1;
      }
      return Pass;
    }

    /** handleNode: parse an engine section; report any other section as one to skip. */
    method HandleNode(node: Node, name: string) returns (skip: bool, o: Outcome<Exception>)
      modifies engineConfig
      ensures skip <==> !sections.isEngine(name)
      ensures skip ==> o.Pass? && engineConfig.Settings() == old(engineConfig.Settings())
      ensures !skip ==> (engineConfig.Settings(), o) == Run(EngineStepper(keys, defaults), old(engineConfig.Settings()), node.children)
    {
      if sections.isEngine(name) {
        o := ParseEngineConfig(node);
        return false, o;
      }
      return true, Pass;
    }

    method ParseEngineConfig(node: Node) returns (o: Outcome<Exception>)
      modifies engineConfig
      ensures (engineConfig.Settings(), o) == Run(EngineStepper(keys, defaults), old(engineConfig.Settings()), node.children)
    {
      var children := node.children;
      var i := 0;
      while i < |children|
        invariant 0 <= i <= |children|
        invariant Run(EngineStepper(keys, defaults), old(engineConfig.Settings()), children)
               == Run(EngineStepper(keys, defaults), engineConfig.Settings(), children[i..])
      {
        var child := children[i];
        var name := child.name;
        ghost var before := engineConfig.Settings();
        assert children[i..][0] == child && children[i..][1..] == children[i + 1..];
        if name == keys.backupCount {
          var v := IntegerValue(keys.backupCount, child.text);
          if v.Err? { return Fail(v.error); }
          engineConfig.backupCount := v.value;
        } else if name == keys.printExecutionInfoInterval {
          var v := IntegerValue(keys.printExecutionInfoInterval, child.text);
          if v.Err? { return Fail(v.error); }
          engineConfig.printExecutionInfoInterval := v.value;
        } else if name == keys.slotService {
          var c := ParseSlotServiceConfig(child);
          if c.Err? { return Fail(c.error); }
          engineConfig.slotServiceConfig := c.value;
        } else if name == keys.checkpoint {
          var c := ParseCheckpointConfig(child);
          if c.Err? { return Fail(c.error); }
          engineConfig.checkpointConfig := c.value;
        }
        assert EngineStep(keys, defaults, before, child) == Ok(engineConfig.Settings());
        i := i + 1;
      }
      return Pass;
    }

    method ParseSlotServiceConfig(node: Node) returns (r: Result<SlotServiceConfig, Exception>)
      ensures r == SlotOf(keys, defaults, node)
    {
      var slotServiceConfig := defaults.slotService;
      var children := node.children;
      var i := 0;
      while i < |children|
        invariant 0 <= i <= |children|
        invariant Run(SlotStepper(keys), defaults.slotService, children)
               == Run(SlotStepper(keys), slotServiceConfig, children[i..])
      {
        var child := children[i];
        var name := child.name;
        assert children[i..][0] == child && children[i..][1..] == children[i + 1..];
        if name == keys.dynamicSlot {
          slotServiceConfig := slotServiceConfig.(dynamicSlot := BooleanValue(child.text));
        } else if name == keys.slotNum {
          var v := IntegerValue(keys.slotNum, child.text);
          if v.Err? { return Err(v.error); }
          slotServiceConfig := slotServiceConfig.(slotNum := v.value);
        }
        i := i + 1;
      }
      return Ok(slotServiceConfig);
    }

    method ParseCheckpointConfig(node: Node) returns (r: Result<CheckpointConfig, Exception>)
      ensures r == CheckpointOf(keys, defaults, node)
    {
      var checkpointConfig := defaults.checkpoint;
      var children := node.children;
      var i := 0;
      while i < |children|
        invariant 0 <= i <= |children|
        invariant Run(CheckpointStepper(keys, defaults), defaults.checkpoint, children)
               == Run(CheckpointStepper(keys, defaults), checkpointConfig, children[i..])
      {
        var child := children[i];
        var name := child.name;
        ghost var before := checkpointConfig;
        assert children[i..][0] == child && children[i..][1..] == children[i + 1..];
        if name == keys.checkpointInterval {
          var v := IntegerValue(keys.checkpointInterval, child.text);
          if v.Err? { return Err(v.error); }
          checkpointConfig := checkpointConfig.(checkpointInterval := v.value);
        } else if name == keys.checkpointTimeout {
          var v := IntegerValue(keys.checkpointTimeout, child.text);
          if v.Err? { return Err(v.error); }
          checkpointConfig := checkpointConfig.(checkpointTimeout := v.value);
        } else if name == keys.maxConcurrent {
          var v := IntegerValue(keys.maxConcurrent, child.text);
          if v.Err? { return Err(v.error); }
          checkpointConfig := checkpointConfig.(maxConcurrentCheckpoints := v.value);
        } else if name == keys.tolerableFailure {
          var v := IntegerValue(keys.tolerableFailure, child.text);
          if v.Err? { return Err(v.error); }
          checkpointConfig := checkpointConfig.(tolerableFailureCheckpoints := v.value);
        } else if name == keys.checkpointStorage {
          var st := ParseCheckpointStorageConfig(child);
          if st.Err? { return Err(st.error); }
          checkpointConfig := checkpointConfig.(storage := st.value);
        }
        assert CheckpointStep(keys, defaults, before, child) == Ok(checkpointConfig);
        i := i + 1;
      }
      return Ok(checkpointConfig);
    }

    method ParseCheckpointStorageConfig(node: Node) returns (r: Result<CheckpointStorageConfig, Exception>)
      ensures r == StorageOf(keys, defaults, node)
    {
      var checkpointStorageConfig := defaults.storage;
      var children := node.children;
      var i := 0;
      while i < |children|
        invariant 0 <= i <= |children|
        invariant Run(StorageStepper(keys), defaults.storage, children)
               == Run(StorageStepper(keys), checkpointStorageConfig, children[i..])
      {
        var child := children[i];
        var name := child.name;
        assert children[i..][0] == child && children[i..][1..] == children[i + 1..];
        if name == keys.storageType {
          checkpointStorageConfig := checkpointStorageConfig.(storage := child.text);
        } else if name == keys.maxRetained {
          var v := IntegerValue(keys.maxRetained, child.text);
          if v.Err? { return Err(v.error); }
          checkpointStorageConfig := checkpointStorageConfig.(maxRetainedCheckpoints := v.value);
        }
        i := i + 1;
      }
      return Ok(checkpointStorageConfig);
    }
  }
}
