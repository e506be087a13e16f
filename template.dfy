/**
 * The end-to-end test engine of acs-engine (test/e2e/engine/template.go):
 * it loads a cluster descriptor template, overlays the values of a Config
 * onto a fixed set of descriptor fields, writes the merged descriptor, and
 * answers topology questions about it.
 *
 * Reading the environment, the file system and JSON (un)marshalling are
 * outside the model: they enter as function-typed parameters.
 */
module EngineTemplate {
  import opened Wrappers
  import opened Api

  type Bytes = seq<bv8>

  /** The six overlay values; an unset environment variable reads as "". */
  datatype Config = Config(
    clientID: string,
    clientSecret: string,
    masterDNSPrefix: string,
    publicSSHKey: string,
    windowsAdminPassword: string,
    orchestratorRelease: string)

  /** The Config that sets nothing. */
  const EmptyConfig := Config("", "", "", "", "", "")

  /** Errors that Build returns to its caller. */
  datatype Error = ReadError | UnmarshalError | MarshalError

  /** A Go runtime panic: indexing a slice out of range. */
  datatype Fault = IndexOutOfRange(index: int, length: int)

  /** What a call of Build ends in: an engine, a returned error, or a panic. */
  datatype BuildOutcome = Built(engine: Engine) | Failed(error: Error) | Panicked(fault: Fault)

  // ---------------------------------------------------------------------
  // Paths (template.go:54-64). filepath.Join is the parameter `join`.
  // ---------------------------------------------------------------------

  /** "%s/%s.json" of the output root and the run name. */
  function DefinitionFileName(outputPath: string, definitionName: string): (name: string)
  {
    outputPath + "/" + definitionName + ".json"
  }

  /** "%s/%s" of the output root and the run name. */
  function DefinitionDirName(outputPath: string, definitionName: string): (name: string)
  {
    outputPath + "/" + definitionName
  }

  /**
   * Different run names give different "%s/%s.json" strings and different "%s/%s"
   * strings under one output root (before filepath.Join, which cleans paths).
   */
  lemma RunNamesSeparateOutputs(outputPath: string, name1: string, name2: string)
    requires name1 != name2
    ensures DefinitionDirName(outputPath, name1) != DefinitionDirName(outputPath, name2)
    ensures DefinitionFileName(outputPath, name1) != DefinitionFileName(outputPath, name2)
  {
    var n := |outputPath| + 1;
    var dir1, dir2 := DefinitionDirName(outputPath, name1), DefinitionDirName(outputPath, name2);
    assert dir1[n..] == name1;
    assert dir2[n..] == name2;
    var file1, file2 := DefinitionFileName(outputPath, name1), DefinitionFileName(outputPath, name2);
    assert file1[..|file1| - 5] == dir1;
    assert file2[..|file2| - 5] == dir2;
  }

  // ---------------------------------------------------------------------
  // The overlay (template.go:72-91), one guarded assignment per step.
  // ---------------------------------------------------------------------

  /** Lines 72-75: both credentials, and only when both are set. */
  function WithCredentials(d: Descriptor, c: Config): (r: Descriptor)
  {
    if c.clientID != "" && c.clientSecret != "" then d.(clientID := c.clientID, secret := c.clientSecret)
    else d
  }

  /** Lines 77-79. */
  function WithDnsPrefix(d: Descriptor, c: Config): (r: Descriptor)
  {
    if c.masterDNSPrefix != "" then d.(dnsPrefix := c.masterDNSPrefix) else d
  }

  /** Lines 81-83: the key goes into PublicKeys[0]; with no entries the index panics. */
  function WithSshKey(d: Descriptor, c: Config): (r: Result<Descriptor, Fault>)
  {
    if c.publicSSHKey == "" then Success(d)
    else if |d.publicKeys| == 0 then Failure(IndexOutOfRange(0, 0))
    else Success(d.(publicKeys := d.publicKeys[0 := d.publicKeys[0].(keyData := c.publicSSHKey)]))
  }

  /** Lines 85-87. */
  function WithAdminPassword(d: Descriptor, c: Config): (r: Descriptor)
  {
    if c.windowsAdminPassword != "" then d.(adminPassword := c.windowsAdminPassword) else d
  }

  /** Lines 89-91. */
  function WithOrchestratorRelease(d: Descriptor, c: Config): (r: Descriptor)
  {
    if c.orchestratorRelease != "" then d.(orchestratorRelease := c.orchestratorRelease) else d
  }

  /** The descriptor once the steps before the SSH key have run (what a panic leaves behind). */
  function BeforeSshKey(d: Descriptor, c: Config): (r: Descriptor)
  {
    WithDnsPrefix(WithCredentials(d, c), c)
  }

  /** The whole overlay of lines 72-91, as a value. */
  function Overlaid(d: Descriptor, c: Config): (r: Result<Descriptor, Fault>)
  {
    match WithSshKey(BeforeSshKey(d, c), c)
    case Failure(f) => Failure(f)
    case Success(k) => Success(WithOrchestratorRelease(WithAdminPassword(k, c), c))
  }

  /** The overlay applied in place to the parsed object, in the source's order. */
  method Overlay(cs: ContainerService, config: Config) returns (fault: Option<Fault>)
    modifies cs
    ensures fault.None? <==> Overlaid(old(cs.Snapshot()), config).Success?
    ensures fault.None? ==> cs.Snapshot() == Overlaid(old(cs.Snapshot()), config).value
    ensures fault.Some? ==> fault.value == IndexOutOfRange(0, 0)
    ensures fault.Some? ==> cs.Snapshot() == BeforeSshKey(old(cs.Snapshot()), config)
  {
    if config.clientID != "" && config.clientSecret != "" {
      cs.clientID := config.clientID;
      cs.secret := config.clientSecret;
    }
    if config.masterDNSPrefix != "" {
      cs.dnsPrefix := config.masterDNSPrefix;
    }
    if config.publicSSHKey != "" {
      if |cs.publicKeys| == 0 {
        return Some(IndexOutOfRange(0, |cs.publicKeys|));
      }
      cs.publicKeys := cs.publicKeys[0 := cs.publicKeys[0].(keyData := config.publicSSHKey)];
    }
    if config.windowsAdminPassword != "" {
      cs.adminPassword := config.windowsAdminPassword;
    }
    if config.orchestratorRelease != "" {
      cs.orchestratorRelease := config.orchestratorRelease;
    }
    return None;
  }

  /** Partial credentials are never applied: both fields change together or not at all. */
  lemma OverlayCredentialsBothOrNeither(d: Descriptor, c: Config)
    requires Overlaid(d, c).Success?
    ensures c.clientID != "" && c.clientSecret != "" ==>
      Overlaid(d, c).value.clientID == c.clientID && Overlaid(d, c).value.secret == c.clientSecret
    ensures c.clientID == "" || c.clientSecret == "" ==>
      Overlaid(d, c).value.clientID == d.clientID && Overlaid(d, c).value.secret == d.secret
  {
  }

  /** DNS prefix, admin password and release: an empty value passes the template through, a set one replaces it. */
  lemma OverlayScalarFields(d: Descriptor, c: Config)
    requires Overlaid(d, c).Success?
    ensures Overlaid(d, c).value.dnsPrefix == if c.masterDNSPrefix == "" then d.dnsPrefix else c.masterDNSPrefix
    ensures Overlaid(d, c).value.adminPassword ==
      if c.windowsAdminPassword == "" then d.adminPassword else c.windowsAdminPassword
    ensures Overlaid(d, c).value.orchestratorRelease ==
      if c.orchestratorRelease == "" then d.orchestratorRelease else c.orchestratorRelease
  {
  }

  /**
   * The SSH key overlay fails exactly when a key is set and the template has no key
   * entry; otherwise the list keeps its length and only entry 0 can change.
   */
  lemma OverlaySshKey(d: Descriptor, c: Config)
    ensures Overlaid(d, c).Failure? <==> c.publicSSHKey != "" && |d.publicKeys| == 0
    ensures Overlaid(d, c).Success? ==>
      var keys := Overlaid(d, c).value.publicKeys;
      && |keys| == |d.publicKeys|
      && (forall i :: 1 <= i < |keys| ==> keys[i] == d.publicKeys[i])
      && (|keys| > 0 ==> keys[0].keyData == if c.publicSSHKey == "" then d.publicKeys[0].keyData else c.publicSSHKey)
  {
  }

  /** The overlay touches none of the fields the topology queries read, nor the opaque rest. */
  lemma OverlayKeepsTopology(d: Descriptor, c: Config)
    requires Overlaid(d, c).Success?
    ensures Overlaid(d, c).value.masterCount == d.masterCount
    ensures Overlaid(d, c).value.agentPools == d.agentPools
    ensures Overlaid(d, c).value.rest == d.rest
    ensures NodeTotal(Overlaid(d, c).value) == NodeTotal(d)
    ensures HasLinuxPool(Overlaid(d, c).value.agentPools) == HasLinuxPool(d.agentPools)
    ensures HasWindowsPool(Overlaid(d, c).value.agentPools) == HasWindowsPool(d.agentPools)
  {
  }

  /** Overlaying the same config a second time changes nothing more. */
  lemma OverlayIdempotent(d: Descriptor, c: Config)
    requires Overlaid(d, c).Success?
    ensures Overlaid(Overlaid(d, c).value, c) == Overlaid(d, c)
  {
    var r := Overlaid(d, c).value;
    assert BeforeSshKey(r, c) == r;
    if c.publicSSHKey != "" {
      assert r.publicKeys[0 := r.publicKeys[0].(keyData := c.publicSSHKey)] == r.publicKeys;
    }
    assert WithSshKey(r, c) == Success(r);
  }

  /** An all-empty config leaves the descriptor exactly as parsed. */
  lemma EmptyConfigKeepsDescriptor(d: Descriptor)
    ensures Overlaid(d, EmptyConfig) == Success(d)
  {
  }

  /** A client id without a secret leaves the service principal as in the template. */
  lemma ClientIdWithoutSecretIgnored(d: Descriptor, c: Config)
    requires c.clientID != "" && c.clientSecret == ""
    requires Overlaid(d, c).Success?
    ensures Overlaid(d, c).value.clientID == d.clientID
    ensures Overlaid(d, c).value.secret == d.secret
  {
  }

  // ---------------------------------------------------------------------
  // Topology (template.go:103-129): specifications and their properties.
  // ---------------------------------------------------------------------

  /** Sum of the pools' counts. */
  function CountSum(pools: seq<AgentPoolProfile>): (sum: int)
  {
    if pools == [] then 0 else pools[0].count + CountSum(pools[1..])
  }

  /** Master count plus every pool's count: the nodes the cluster should have. */
  function NodeTotal(d: Descriptor): (total: int)
  {
    d.masterCount + CountSum(d.agentPools)
  }

  /** An unset OS type defaults to Linux. */
  predicate IsLinuxOsType(osType: string)
  {
    osType == "" || osType == "Linux"
  }

  /** Only the exact string "Windows" names Windows. */
  predicate IsWindowsOsType(osType: string)
  {
    osType == "Windows"
  }

  /** Some pool's OS type satisfies `matches`. */
  predicate AnyPool(pools: seq<AgentPoolProfile>, matches: string -> bool)
  {
    exists k :: 0 <= k < |pools| && matches(pools[k].osType)
  }

  predicate HasLinuxPool(pools: seq<AgentPoolProfile>)
  {
    AnyPool(pools, IsLinuxOsType)
  }

  predicate HasWindowsPool(pools: seq<AgentPoolProfile>)
  {
    AnyPool(pools, IsWindowsOsType)
  }

  lemma {:induction false} CountSumAppend(a: seq<AgentPoolProfile>, b: seq<AgentPoolProfile>)
    ensures CountSum(a + b) == CountSum(a) + CountSum(b)
    decreases |a|
  {
    if a == [] {
      assert a + b == b;
    } else {
      assert (a + b)[1..] == a[1..] + b;
      CountSumAppend(a[1..], b);
    }
  }

  /** Taking pool j out of the list takes its count out of the sum. */
  lemma CountSumRemove(pools: seq<AgentPoolProfile>, j: int)
    requires 0 <= j < |pools|
    ensures CountSum(pools) == pools[j].count + CountSum(pools[..j] + pools[j + 1..])
  {
    assert pools == pools[..j] + ([pools[j]] + pools[j + 1..]);
    CountSumAppend(pools[..j], [pools[j]] + pools[j + 1..]);
    assert ([pools[j]] + pools[j + 1..])[1..] == pools[j + 1..];
    CountSumAppend(pools[..j], pools[j + 1..]);
  }

  /** Taking element j out of a list takes one copy of it out of the multiset. */
  lemma MultisetRemove(pools: seq<AgentPoolProfile>, j: int)
    requires 0 <= j < |pools|
    ensures multiset(pools[..j] + pools[j + 1..]) == multiset(pools) - multiset{pools[j]}
  {
    assert pools == pools[..j] + [pools[j]] + pools[j + 1..];
  }

  /** A reordering of a non-empty list holds its first element at some j; the rests are reorderings too. */
  lemma MatchFirst(a: seq<AgentPoolProfile>, b: seq<AgentPoolProfile>) returns (j: int)
    requires multiset(a) == multiset(b) && a != []
    ensures 0 <= j < |b| && b[j] == a[0]
    ensures multiset(a[1..]) == multiset(b[..j] + b[j + 1..])
  {
    assert a[0] in multiset(a);
    assert a[0] in b;
    j :| 0 <= j < |b| && b[j] == a[0];
    var others := b[..j] + b[j + 1..];
    MultisetRemove(b, j);
    assert multiset(others) == multiset(b) - multiset{a[0]};
    assert multiset(a[1..]) == multiset(a) - multiset{a[0]} by {
      assert a == [a[0]] + a[1..];
    }
  }

  /** The node count does not depend on the order of the agent pools. */
  lemma {:induction false} CountSumPermutation(a: seq<AgentPoolProfile>, b: seq<AgentPoolProfile>)
    requires multiset(a) == multiset(b)
    ensures CountSum(a) == CountSum(b)
    decreases |a|
  {
    if a == [] {
      assert |multiset(b)| == 0;
      assert b == [];
    } else {
      var j := MatchFirst(a, b);
      CountSumPermutation(a[1..], b[..j] + b[j + 1..]);
      CountSumRemove(b, j);
    }
  }

  /** Whether some pool matches does not depend on the order of the pools. */
  lemma AnyPoolPermutation(a: seq<AgentPoolProfile>, b: seq<AgentPoolProfile>, matches: string -> bool)
    requires multiset(a) == multiset(b)
    ensures AnyPool(a, matches) == AnyPool(b, matches)
  {
    if AnyPool(a, matches) {
      var k :| 0 <= k < |a| && matches(a[k].osType);
      assert a[k] in multiset(b);
      var j :| 0 <= j < |b| && b[j] == a[k];
    }
    if AnyPool(b, matches) {
      var k :| 0 <= k < |b| && matches(b[k].osType);
      assert b[k] in multiset(a);
      var j :| 0 <= j < |a| && a[j] == b[k];
    }
  }

  /** No pool is both Linux and Windows, so an all-Linux (or all-unset) list has no Windows pool. */
  lemma LinuxPoolsAreNotWindows(pools: seq<AgentPoolProfile>)
    requires forall k :: 0 <= k < |pools| ==> IsLinuxOsType(pools[k].osType)
    ensures !HasWindowsPool(pools)
    ensures pools != [] ==> HasLinuxPool(pools)
  {
    if pools != [] {
      assert IsLinuxOsType(pools[0].osType);
    }
  }

  /** With no agent pools: the master count alone, and neither kind of pool. */
  lemma NoPools(d: Descriptor)
    requires d.agentPools == []
    ensures NodeTotal(d) == d.masterCount
    ensures !HasLinuxPool(d.agentPools) && !HasWindowsPool(d.agentPools)
  {
  }

  /** One master and one pool of three with an unset OS type. */
  lemma ScenarioSingleDefaultPool(d: Descriptor)
    requires d.masterCount == 1 && d.agentPools == [AgentPoolProfile(3, "")]
    ensures NodeTotal(d) == 4
    ensures HasLinuxPool(d.agentPools) && !HasWindowsPool(d.agentPools)
  {
    assert d.agentPools[1..] == [];
    assert CountSum(d.agentPools) == 3 + CountSum([]);
    assert IsLinuxOsType(d.agentPools[0].osType);
  }

  /** One master, a Windows pool of two and a Linux pool of one. */
  lemma ScenarioMixedPools(d: Descriptor)
    requires d.masterCount == 1
    requires d.agentPools == [AgentPoolProfile(2, "Windows"), AgentPoolProfile(1, "Linux")]
    ensures NodeTotal(d) == 4
    ensures HasLinuxPool(d.agentPools) && HasWindowsPool(d.agentPools)
  {
    assert d.agentPools[1..] == [AgentPoolProfile(1, "Linux")];
    assert d.agentPools[1..][1..] == [];
    assert CountSum(d.agentPools[1..]) == 1 + CountSum([]);
    assert IsWindowsOsType(d.agentPools[0].osType);
    assert IsLinuxOsType(d.agentPools[1].osType);
  }

  // ---------------------------------------------------------------------
  // The engine (template.go:24-35) and Build (48-100).
  // ---------------------------------------------------------------------

  /** Reading the template file and unmarshalling it (template.go:132-144), as a value. */
  function Parsed(readFile: string -> Result<Bytes, Error>, unmarshal: Bytes -> Result<Descriptor, Error>,
                  path: string): (r: Result<Descriptor, Error>)
  {
    match readFile(path)
    case Failure(e) => Failure(e)
    case Success(contents) => unmarshal(contents)
  }

  class Engine {
    var config: Config
    var clusterDefinitionPath: string
    var clusterDefinitionTemplate: string
    var generatedDefinitionPath: string
    var outputPath: string
    var definitionName: string
    var generatedTemplatePath: string
    var generatedParametersPath: string
    var clusterDefinition: ContainerService?

    /** The paths are the ones derived from the four inputs of Build (template.go:54-64). */
    predicate PathsDerivedFrom(cwd: string, templatePath: string, outputPath': string, definitionName': string,
                               join: seq<string> -> string)
      reads this
    {
      && definitionName == definitionName'
      && clusterDefinitionPath == join([cwd, templatePath])
      && clusterDefinitionTemplate == join([cwd, DefinitionFileName(outputPath', definitionName')])
      && outputPath == join([cwd, outputPath'])
      && generatedDefinitionPath == join([cwd, DefinitionDirName(outputPath', definitionName')])
      && generatedTemplatePath == join([cwd, DefinitionDirName(outputPath', definitionName'), "azuredeploy.json"])
      && generatedParametersPath ==
           join([cwd, DefinitionDirName(outputPath', definitionName'), "azuredeploy.parameters.json"])
    }

    /** The Engine literal of template.go:56-65; the cluster definition is not set yet. */
    constructor (config: Config, cwd: string, templatePath: string, outputPath: string, definitionName: string,
                 join: seq<string> -> string)
      ensures this.config == config
      ensures PathsDerivedFrom(cwd, templatePath, outputPath, definitionName, join)
      ensures clusterDefinition == null
    {
      var definitionFile := DefinitionFileName(outputPath, definitionName);
      var definitionDir := DefinitionDirName(outputPath, definitionName);
      this.config := config;
      this.definitionName := definitionName;
      this.clusterDefinitionPath := join([cwd, templatePath]);
      this.clusterDefinitionTemplate := join([cwd, definitionFile]);
      this.outputPath := join([cwd, outputPath]);
      this.generatedDefinitionPath := join([cwd, definitionDir]);
      this.generatedTemplatePath := join([cwd, definitionDir, "azuredeploy.json"]);
      this.generatedParametersPath := join([cwd, definitionDir, "azuredeploy.parameters.json"]);
      this.clusterDefinition := null;
    }

    /** Read and unmarshal the template at clusterDefinitionPath into a fresh object. */
    method Parse(readFile: string -> Result<Bytes, Error>, unmarshal: Bytes -> Result<Descriptor, Error>)
      returns (r: Result<ContainerService, Error>)
      ensures r.Success? <==> Parsed(readFile, unmarshal, clusterDefinitionPath).Success?
      ensures r.Success? ==>
        fresh(r.value) && r.value.Snapshot() == Parsed(readFile, unmarshal, clusterDefinitionPath).value
      ensures r.Failure? ==> r.error == Parsed(readFile, unmarshal, clusterDefinitionPath).error
    {
      var contents := readFile(clusterDefinitionPath);
      if contents.Failure? {
        return Failure(contents.error);
      }
      var d := unmarshal(contents.value);
      if d.Failure? {
        return Failure(d.error);
      }
      var cs := new ContainerService(d.value);
      return Success(cs);
    }

    /**
     * Marshal `cs` and store it at clusterDefinitionTemplate. A marshal error is
     * returned. A file write that reports failure is swallowed: no error is returned,
     * and `written` is None, meaning the file's contents are unspecified.
     */
    method Write(cs: ContainerService, marshal: Descriptor -> Result<Bytes, Error>,
                 writeFile: (string, Bytes) -> bool)
      returns (err: Option<Error>, written: Option<Bytes>)
      ensures err.Some? <==> marshal(cs.Snapshot()).Failure?
      ensures err.Some? ==> err.value == marshal(cs.Snapshot()).error && written == None
      ensures err.None? ==>
        var bytes := marshal(cs.Snapshot()).value;
        written == if writeFile(clusterDefinitionTemplate, bytes) then Some(bytes) else None
    {
      var json := marshal(cs.Snapshot());
      if json.Failure? {
        return Some(json.error), None;
      }
      var ok := writeFile(clusterDefinitionTemplate, json.value);
      written := if ok then Some(json.value) else None;
      err := None;
    }

    /** Master count plus the sum of the agent pools' counts (template.go:103-109). */
    method NodeCount() returns (expectedCount: int)
      requires clusterDefinition != null
      ensures expectedCount == NodeTotal(clusterDefinition.Snapshot())
    {
      var pools := clusterDefinition.agentPools;
      expectedCount := clusterDefinition.masterCount;
      var i := 0;
      while i < |pools|
        invariant 0 <= i <= |pools|
        invariant expectedCount == clusterDefinition.masterCount + CountSum(pools[..i])
      {
        assert pools[..i + 1] == pools[..i] + [pools[i]];
        CountSumAppend(pools[..i], [pools[i]]);
        expectedCount := expectedCount + pools[i].count;
        i := i + 1;
      }
      assert pools[..i] == pools;
    }

    /** True at the first pool whose OS type is unset or "Linux" (template.go:112-119). */
    method HasLinuxAgents() returns (found: bool)
      requires clusterDefinition != null
      ensures found == HasLinuxPool(clusterDefinition.agentPools)
    {
      var pools := clusterDefinition.agentPools;
      var i := 0;
      while i < |pools|
        invariant 0 <= i <= |pools|
        invariant forall k :: 0 <= k < i ==> !IsLinuxOsType(pools[k].osType)
      {
        if pools[i].osType == "" || pools[i].osType == "Linux" {
          assert IsLinuxOsType(pools[i].osType);
          return true;
        }
        i := i + 1;
      }
      return false;
    }

    /** True at the first pool whose OS type is exactly "Windows" (template.go:122-129). */
    method HasWindowsAgents() returns (found: bool)
      requires clusterDefinition != null
      ensures found == HasWindowsPool(clusterDefinition.agentPools)
    {
      var pools := clusterDefinition.agentPools;
      var i := 0;
      while i < |pools|
        invariant 0 <= i <= |pools|
        invariant forall k :: 0 <= k < i ==> !IsWindowsOsType(pools[k].osType)
      {
        if pools[i].osType == "Windows" {
          assert IsWindowsOsType(pools[i].osType);
          return true;
        }
        i := i + 1;
      }
      return false;
    }
  }

  /**
   * Build (template.go:48-100) with the loaded Config: derive the paths, parse the
   * template, overlay the config in place, write the result, and keep it on the engine.
   */
  method Build(cwd: string, templatePath: string, outputPath: string, definitionName: string, config: Config,
               join: seq<string> -> string,
               readFile: string -> Result<Bytes, Error>, unmarshal: Bytes -> Result<Descriptor, Error>,
               marshal: Descriptor -> Result<Bytes, Error>, writeFile: (string, Bytes) -> bool)
    returns (outcome: BuildOutcome, written: Option<Bytes>)
    ensures
      var parsed := Parsed(readFile, unmarshal, join([cwd, templatePath]));
      parsed.Failure? ==> outcome == Failed(parsed.error) && written == None
    ensures
      var parsed := Parsed(readFile, unmarshal, join([cwd, templatePath]));
      parsed.Success? && Overlaid(parsed.value, config).Failure? ==>
        outcome == Panicked(IndexOutOfRange(0, 0)) && written == None
    ensures
      var parsed := Parsed(readFile, unmarshal, join([cwd, templatePath]));
      parsed.Success? && Overlaid(parsed.value, config).Success? &&
      marshal(Overlaid(parsed.value, config).value).Failure? ==>
        outcome == Failed(marshal(Overlaid(parsed.value, config).value).error) && written == None
    ensures
      var parsed := Parsed(readFile, unmarshal, join([cwd, templatePath]));
      parsed.Success? && Overlaid(parsed.value, config).Success? &&
      marshal(Overlaid(parsed.value, config).value).Success? ==>
        var merged := Overlaid(parsed.value, config).value;
        var bytes := marshal(merged).value;
        && outcome.Built?
        && fresh(outcome.engine)
        && outcome.engine.config == config
        && outcome.engine.PathsDerivedFrom(cwd, templatePath, outputPath, definitionName, join)
        && outcome.engine.clusterDefinition != null
        && fresh(outcome.engine.clusterDefinition)
        && outcome.engine.clusterDefinition.Snapshot() == merged
        && written == if writeFile(outcome.engine.clusterDefinitionTemplate, bytes) then Some(bytes) else None
  {
    var engine := new Engine(config, cwd, templatePath, outputPath, definitionName, join);
    var cs := engine.Parse(readFile, unmarshal);
    if cs.Failure? {
      return Failed(cs.error), None;
    }
    var fault := Overlay(cs.value, config);
    if fault.Some? {
      return Panicked(fault.value), None;
    }
    var err;
    err, written := engine.Write(cs.value, marshal, writeFile);
    if err.Some? {
      return Failed(err.value), None;
    }
    engine.clusterDefinition := cs.value;
    return Built(engine), written;
  }
}
