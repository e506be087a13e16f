# acs-engine end-to-end template engine, modelled in Dafny

This project models the engine that the acs-engine end-to-end tests use to
prepare a cluster definition (`test/e2e/engine/template.go`). `Build` derives
the run's paths. It parses the template cluster definition and overlays the
values of a `Config` onto six fixed fields of the parsed object, in place.
It then writes the merged definition and keeps it on the `Engine`. The three
topology queries `NodeCount`, `HasLinuxAgents` and `HasWindowsAgents` read the
merged definition.

Files:

- `wrappers.dfy`: module `Wrappers`, with `Option` and `Result`.
- `api.dfy`: module `Api`. It holds the part of the vlabs container-service
  document that the engine touches. `Descriptor` is that part as a value.
  `ContainerService` is the parsed object that `Build` mutates, and
  `Snapshot()` gives its value. Every other field of the document is one
  opaque `Payload`.
- `template.dfy`: module `EngineTemplate`, which holds the rest.
  - The overlay is specified step by step (`WithCredentials` …
    `WithOrchestratorRelease`, composed in `Overlaid`). The in-place method
    `Overlay` is proved against that specification.
  - The topology specifications are `NodeTotal`, `HasLinuxPool` and
    `HasWindowsPool`. The `Engine` class's loop methods are proved equal to them.
  - `Build` ties everything together.

The process environment, the file system and JSON (un)marshalling are
parameters: `join` stands for `filepath.Join`, and `readFile`, `unmarshal`,
`marshal` and `writeFile` stand for the I/O and encoding calls. `Build`
receives the already-loaded `Config`.

Three behaviours of the code differ from what a reader might assume; the model follows the code:

- When `ParseConfig` fails, the code only logs the error (template.go:49-52).
  If the template then parses (a read or unmarshal error returns first, at
  template.go:67-70), line 72 dereferences the nil config. It does not fall
  back to an all-empty config. The model takes a present `Config`.
- In `write`, a marshal error is returned, and `Build` then fails
  (template.go:147-151, 93-96). Only a failed `WriteFile` is swallowed
  (152-156). `Engine.Write` and `Build` state exactly that.
- An SSH key overlay when the template has no public-key entry indexes
  `PublicKeys[0]` of an empty slice, which is a Go runtime panic. The model
  returns it as `Panicked(IndexOutOfRange(0, 0))`, which is distinct from
  the errors `Build` returns. The object is left with the credential and DNS
  prefix overlays applied (`BeforeSshKey`).

## Model

| member | source | states |
|---|---|---|
| `EngineTemplate.Overlay` | test/e2e/engine/template.go:72-91 | the parsed object afterwards is `Overlaid(old value, config)`; it panics exactly when `Overlaid` fails, and then only the credential and DNS-prefix steps have been applied |
| `EngineTemplate.OverlayCredentialsBothOrNeither` | test/e2e/engine/template.go:72-75 | client id and secret are both replaced when both config values are non-empty; if either is empty, both keep their template values |
| `EngineTemplate.ClientIdWithoutSecretIgnored` | test/e2e/engine/template.go:72-75 | a client id with an empty secret leaves the service principal unchanged |
| `EngineTemplate.OverlayScalarFields` | test/e2e/engine/template.go:77-91 | DNS prefix, Windows admin password and orchestrator release keep their template value when the config value is empty and become the config value otherwise |
| `EngineTemplate.OverlaySshKey` | test/e2e/engine/template.go:81-83 | the overlay fails iff a key is set and there is no public-key entry; on success the key list keeps its length, entries 1.. are unchanged, and entry 0's key data becomes the config key when one is set |
| `EngineTemplate.OverlayKeepsTopology` | test/e2e/engine/template.go:72-91 | the overlay leaves master count, agent pools and the opaque rest unchanged, so node count, Linux presence and Windows presence are the same before and after |
| `EngineTemplate.OverlayIdempotent` | test/e2e/engine/template.go:72-91 | applying the overlay to its own successful result with the same config gives the same result |
| `EngineTemplate.EmptyConfigKeepsDescriptor` | test/e2e/engine/template.go:72-91 | an all-empty config succeeds and returns the descriptor unchanged |
| `EngineTemplate.CountSumAppend` | test/e2e/engine/template.go:104-107 | the pool-count sum of a concatenation is the sum of the two parts' sums |
| `EngineTemplate.CountSumPermutation` | test/e2e/engine/template.go:103-109 | any reordering of the agent pools gives the same count sum |
| `EngineTemplate.AnyPoolPermutation` | test/e2e/engine/template.go:112-129 | whether some pool has a matching OS type does not depend on the order of the pools |
| `EngineTemplate.LinuxPoolsAreNotWindows` | test/e2e/engine/template.go:112-129 | when every pool's OS type is empty or "Linux", there is no Windows pool, and a non-empty list has a Linux pool |
| `EngineTemplate.NoPools` | test/e2e/engine/template.go:103-129 | with zero pools the node count is the master count, and there is neither a Linux nor a Windows pool |
| `EngineTemplate.ScenarioSingleDefaultPool` | test/e2e/engine/template.go:103-129 | master count 1 and one pool of 3 with unset OS type: 4 nodes, Linux present, Windows absent |
| `EngineTemplate.ScenarioMixedPools` | test/e2e/engine/template.go:103-129 | master count 1 and pools (2, "Windows"), (1, "Linux"): 4 nodes, both kinds present |
| `EngineTemplate.Engine.NodeCount` | test/e2e/engine/template.go:103-109 | the accumulator loop returns the master count plus the sum of all pool counts |
| `EngineTemplate.Engine.HasLinuxAgents` | test/e2e/engine/template.go:112-119 | the early-return search returns true iff some pool's OS type is "" or "Linux" |
| `EngineTemplate.Engine.HasWindowsAgents` | test/e2e/engine/template.go:122-129 | the early-return search returns true iff some pool's OS type is exactly "Windows" |
| `EngineTemplate.RunNamesSeparateOutputs` | test/e2e/engine/template.go:54-55 | the `Sprintf` strings of lines 54-55 ("root/name.json" and "root/name") differ for different run names under the same output root; nothing is claimed about the joined paths |
| `EngineTemplate.Engine.constructor` | test/e2e/engine/template.go:54-65 | each engine path is `join` of the working directory with the template path, the output root, "root/name.json", "root/name", and "root/name" followed by "azuredeploy.json" or "azuredeploy.parameters.json"; no cluster definition yet |
| `EngineTemplate.Engine.Parse` | test/e2e/engine/template.go:132-144 | a read error or an unmarshal error is returned; otherwise a fresh object holds the unmarshalled descriptor |
| `Api.ContainerService.constructor` | test/e2e/engine/template.go:138-139 | the freshly unmarshalled object's value is the parsed descriptor |
| `EngineTemplate.Engine.Write` | test/e2e/engine/template.go:146-157 | a marshal error is returned and no write is attempted; otherwise no error is returned whatever the file write reports; `written` is the marshalled bytes when the write reports success, and None (file contents unspecified) when it reports failure |
| `EngineTemplate.Build` | test/e2e/engine/template.go:48-100 | a parse error is returned; a missing key entry with a key set panics; a marshal error is returned; otherwise a fresh engine with the derived paths holds exactly the overlaid descriptor, whatever the file write did |

## Left out

- Reading the six environment variables through `envconfig.Process` (`ParseConfig`, template.go:38-44) is process-global state and a foreign library. `Config` is a plain input value.
- The nil-config path after a failed `ParseConfig` (template.go:49-52 with 72) is a nil dereference, not specified behaviour. `Build` takes a present `Config`.
- File reads and writes, the 0777 permission bits, and `log.Printf` are I/O. They are parameters (`readFile`, `writeFile`) or dropped (logging).
- JSON marshalling and unmarshalling of the container-service document are parameters (`unmarshal`, `marshal`). The schema in `pkg/api` is not part of this model. Every field the engine does not touch is one opaque `Payload`. Each agent pool carries only its count and OS type.
- The `pkg/api` profiles (`MasterProfile`, `LinuxProfile`, `WindowsProfile`, …) are taken to be present. A missing profile would be a nil dereference when its overlay runs, and `NodeCount` dereferences `MasterProfile` on every call (template.go:104). The model does not represent either.
- `filepath.Join` path cleaning is not modelled. It is the uninterpreted parameter `join`. Only the two `Sprintf` strings are interpreted.
- EngineTemplate.RunNamesSeparateOutputs: it separates only the `Sprintf` strings of template.go:54-55. The model does not show that the engine's joined paths stay apart, because `Join` cleaning can merge different names ("a" and "a/" give the same directory, "a" and "x/../a" the same file).
- EngineTemplate.Engine.Write: `ioutil.WriteFile` truncates the file before writing, so a write that reports failure can leave the file empty, partly written or complete, and there is no rollback. `written == None` says only that the write reported failure; the file's contents are then unspecified.
- EngineTemplate.Engine.NodeCount, EngineTemplate.Engine.HasLinuxAgents, EngineTemplate.Engine.HasWindowsAgents: they require a cluster definition. Called on an `Engine` that `Build` did not return, the Go methods panic on a nil pointer; the model does not represent that panic.
- EngineTemplate.Engine.NodeCount: the sum is over unbounded integers; the wrap-around of Go's 64-bit `int` on overflow is not modelled, because node counts are small.
