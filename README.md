# Pulumi orchestration harness — a Dafny model

This project models the core of a thin infrastructure-as-code harness built on the
Pulumi Automation API:

- **Naming and tagging** (`lib/stack.ts`): `getProgramArgs` turns a stack name and an
  environment into the resolved resource name (`env-stack`, or the bare stack name in
  `common` and `sandbox`) and a four-entry tag map.
- **The stack wrapper** (`lib/stack.ts`): `Stack.create` selects or creates the Pulumi stack,
  exports it to recover the secrets encryption key, saves that key into the stack settings,
  sets the default AWS region, and wraps the result. Each lifecycle method (`refresh`, `preview`,
  `up`, `down`) is a single engine call with the shared streaming options. `outputs` drops the
  secret flags from the engine's outputs.
- **The command runner** (`lib/start.ts`): `start` reads `[stackPath, env, command]` and the
  `--refresh` flag, loads the stack module, validates the environment and then the command,
  constructs the stack, optionally refreshes it, runs the command, and logs every exception as
  one line, with one prefix for construction failures and another for execution failures.
- **The provider cache** (`components/provider/index.ts`): a registry that creates an AWS
  provider at most once per `project:stack:profile-region` key, defaulting region and profile.
- **The instance conventions** (`conventions/instance/index.ts`): unit-test checks that only
  allow ingress on port 80 and only `t4g.nano` instances.

The Pulumi engine is modelled as a `Backend` class (`automation.dfy`). It records every call it
receives with its arguments, in order. It answers from a fixed `Script` that says which
operations throw, what the exported deployment holds and what the raw outputs are. The
orchestration code is proved against that call trace. The logger is a returned log trace. The
dynamic `import` of a stack module is a lookup table from paths to module records.

Files: `wrappers.dfy` (Option, Result), `text.dfy` (integer printing and parsing, `join`),
`json.dfy` (`JSON.stringify` and a reader for its string literals), `errors.dfy` (thrown
values), `automation.dfy` (the engine boundary), `stack.dfy`, `start.dfy`, `provider.dfy`,
`conventions.dfy`.

Behaviour of the code worth knowing:
- A missing `encryptedkey` field is tolerated and saved as `undefined`. A missing
  `secrets_providers` or `state` record makes the property reads `.state`/`.encryptedkey` at
  `lib/stack.ts:57` read a property of `undefined`. That throws a TypeError, and construction fails (`StackLib.EncryptedKey`).
- An empty region or profile string is also replaced by its default, because the code tests
  `!region` rather than `region === undefined` (`Provider.OrDefault`).
- A missing env or command positional is printed as `undefined` in the invalid-value log
  line (`Start.InvalidEnvText`, `Start.InvalidCommandText`).

## Model

| member | source | states |
|---|---|---|
| `StackLib.GetProgramArgs` | lib/stack.ts:22-27 | the returned env is the input env; the tags have exactly the keys iac, stack, env and Name, with iac = "pulumi", stack = the stack name, env = the env, and Name = the resolved name |
| `StackLib.NoPrefixName` | lib/stack.ts:23-25 | in `common` and `sandbox` the resolved name and the Name tag are the stack name |
| `StackLib.PrefixedName` | lib/stack.ts:24-25 | in any other environment the resolved name is `env + "-" + stack` |
| `StackLib.StackOfResolvedName` | lib/stack.ts:24-25 | the stack name can be read back from the resolved name for a given environment |
| `StackLib.ResolvedNameInjective` | lib/stack.ts:24-25 | within one environment, different stacks never get the same resolved name |
| `StackLib.NamesShareAcrossEnvs` | lib/stack.ts:23-25 | across environments names can coincide: `common` and `sandbox` share names, and so do `a` + `b-c` and `a-b` + `c` |
| `StackLib.RunInline` | lib/stack.ts:51 | the deferred program first awaits config(env); if that rejects, program is never called and the run fails with the same value; otherwise program is called once with getProgramArgs(name, env) and the config value, and its result is the run's result |
| `StackLib.Unwrap` | lib/stack.ts:83-91 | the unwrapped outputs have exactly the engine's output keys, each bound to its value; secret outputs are kept |
| `StackLib.UnwrapWrap` | lib/stack.ts:83-91 | unwrapping outputs that pair each program value with any secret flag gives back exactly the program's outputs |
| `StackLib.ReduceOutputs` | lib/stack.ts:84-90 | the reduce over the output entries builds exactly the unwrapped map |
| `StackLib.EncryptedKey` | lib/stack.ts:57 | the key lookup succeeds exactly when the secrets-provider and state records exist, and then yields the (possibly undefined) key; otherwise it throws an Error |
| `StackLib.CreateStartsWithSelect` | lib/stack.ts:50-53 | construction always begins with createOrSelectStack(projectName = name, stackName = env, the inline program for (name, env), projectSettings {name, runtime: "nodejs"}) and makes a prefix of the four-call sequence |
| `StackLib.CreateSucceeds` | lib/stack.ts:50-61 | construction succeeds if and only if no call throws and the key record is present; then the calls are exactly createOrSelectStack, exportStack, saveStackSettings(env, exported key), setAllConfig({aws:region: ap-northeast-2}) |
| `StackLib.KeySavedBeforeConfig` | lib/stack.ts:57-60 | wherever setAllConfig is called, the call just before it saved the exported key for env |
| `StackLib.CreateStopsAtFailure` | lib/stack.ts:50-60 | in a failed construction every call but the last succeeded, and the last is the one that threw (or the export, if the key lookup threw) |
| `StackLib.LifecycleCallShape` | lib/stack.ts:64-78 | refresh, preview, up and down map one-to-one onto the engine's refresh, preview, up and destroy; all use color "always" and the stdout sink; only preview sets diff |
| `StackLib.Stack.constructor` | lib/stack.ts:33-35 | the wrapper holds the engine stack and the shared options |
| `StackLib.Stack.Create` | lib/stack.ts:44-62 | the engine receives exactly the calls of the construction plan; the result fails with the plan's exception, or is a fresh wrapper over the same engine |
| `StackLib.Stack.Refresh` | lib/stack.ts:64-66 | exactly one engine call, refresh with the shared options; throws what the engine throws |
| `StackLib.Stack.Preview` | lib/stack.ts:68-70 | exactly one engine call, preview with the shared options plus diff; throws what the engine throws |
| `StackLib.Stack.Up` | lib/stack.ts:72-74 | exactly one engine call, up with the shared options; throws what the engine throws |
| `StackLib.Stack.Down` | lib/stack.ts:76-78 | exactly one engine call, destroy with the shared options; throws what the engine throws |
| `StackLib.Stack.Outputs` | lib/stack.ts:83-91 | one engine outputs call; the result is the unwrapped outputs, or the engine's exception |
| `Start.ParseCommand` | lib/start.ts:5-7 | a string is a command if and only if it is preview, up or down, and the parsed command prints back as that string |
| `Start.CommandNameRoundTrip` | lib/start.ts:5-7 | every command's name is recognised as that command |
| `Start.Normalise` | lib/start.ts:48-50 | an Error gives its message; any other value gives JSON.stringify of it; a thrown string gives a JSON literal that reads back as the string; undefined gives "undefined" |
| `Start.DiagnosticCarriesMessage` | lib/start.ts:51 | a diagnostic line is its prefix, the normalised text, and a closing parenthesis |
| `Start.ThrownBoomReported` | lib/start.ts:47-51 | `Error("boom")` is reported as `boom` and the thrown string `"boom"` as `"boom"` in quotes |
| `Start.Start` | lib/start.ts:12-68 | the log trace, the engine calls and how the invocation ends are exactly those of the invocation's specification `Expected` |
| `Start.Execute` | lib/start.ts:53-67 | the optional refresh and the command produce exactly the log lines and engine calls of `ExecPlan` |
| `Start.NoPositionals` | lib/start.ts:18-20 | with no positionals, one error is logged and the engine is never called |
| `Start.InvalidEnvRejected` | lib/start.ts:35-38 | a missing or disallowed env logs the invalid-env line and then the usage line, and the engine is never called; this holds whatever the command is |
| `Start.InvalidCommandRejected` | lib/start.ts:39-42 | with an allowed env, a command that is not preview, up or down logs the invalid-command line and then the usage line, and the engine is never called |
| `Start.UsageShape` | lib/start.ts:30-34 | the usage message begins with `Usage: nx start`, the module name, the environments joined by a bar in angle brackets, and the three commands joined by a bar in angle brackets |
| `Start.InstanceUsage` | lib/start.ts:31 | for the instance module with environments [common] the synopsis is exactly the line the runner's test expects, `Usage: nx start instance <common> <preview`, bar, `up`, bar, `down>` |
| `Start.ConstructOnlyWhenValid` | lib/start.ts:35-46 | the engine is called only for a known module, an allowed env and a known command, and the first call selects the stack (module name, env) |
| `Start.ConstructionFailureReported` | lib/start.ts:45-52 | a failed construction is logged as exactly one line under the construction prefix, and neither refresh nor any command is called |
| `Start.RefreshThenCommand` | lib/start.ts:53-61 | after construction, refresh is called once if the flag is set and never otherwise, directly after construction; the command is called exactly once, last, unless the refresh threw |
| `Start.ExecutionFailureReported` | lib/start.ts:53-67 | a throwing refresh is logged under the execution prefix and the command never runs; a throwing command is logged as the last line under the execution prefix; without failures every line is info |
| `Json.Stringify` | lib/start.ts:50 | JSON.stringify yields undefined exactly for undefined |
| `Json.QuoteRoundTrip` | lib/start.ts:50 | the JSON text of a string reads back as the same string |
| `Text.IntToStringRoundTrip` | conventions/instance/index.ts:5 | the printed text of an integer reads back as the same integer |
| `Provider.OrDefault` | components/provider/index.ts:17-18 | a missing or empty region or profile takes its default; any other value is kept |
| `Provider.SplitProviderKey` | components/provider/index.ts:19-20 | when project and stack contain no colon, the key splits back into project, stack and provider name |
| `Provider.KeyInjective` | components/provider/index.ts:20 | calls that differ in project, stack or provider name get different keys, when project and stack contain no colon |
| `Provider.KeyCollisionWithColon` | components/provider/index.ts:20 | without that naming rule two different project/stack pairs can share a key |
| `Provider.AwsProvider.constructor` | components/provider/index.ts:22 | the provider carries the name, region and profile, and the region as its one alias |
| `Provider.Registry.constructor` | components/provider/index.ts:4 | the registry starts empty |
| `Provider.Registry.GetProvider` | components/provider/index.ts:16-24 | afterwards the key is present and the result is its entry; existing entries are unchanged and none is removed; a provider is created, with the defaulted name, region, profile and alias, only when the key was absent, and then it is the only change |
| `Provider.GetProviderIdempotent` | components/provider/index.ts:21-23 | two calls with the same arguments return the same provider; together they create it at most once (only if its key was absent) and file it under the defaulted key |
| `Provider.SeparateStacks` | components/provider/index.ts:9 | two stacks of one project get separate registry entries holding distinct provider objects |
| `InstanceConventions.UnitTestSecurityGroupRule` | conventions/instance/index.ts:1-10 | a rule passes if and only if it is not ingress or both ports are 80; a passing rule returns the empty record; a failing one throws an Error with the message naming both ports |
| `InstanceConventions.RuleMessageReportsPorts` | conventions/instance/index.ts:3-6 | both ports can be read back from a rejected rule's message |
| `InstanceConventions.UnitTestEc2Instance` | conventions/instance/index.ts:12-17 | an instance passes if and only if its type is t4g.nano, and then returns {publicIp: ""}; otherwise it throws an Error naming the type |
| `InstanceConventions.InstanceMessageNamesType` | conventions/instance/index.ts:13-15 | a rejected instance's message is a fixed prefix followed by the offending type |

## Left out

- The Pulumi engine: `LocalWorkspace`, diffing and deployment are foreign calls. The `Backend` records calls and throws according to a script keyed by operation. A failure is fixed per operation kind, which is enough because one invocation makes each call at most once. What the lifecycle calls return (their summaries) is not modelled.
- The inline program is run only by the engine, so no modelled call runs it. `StackLib.RunInline` states what running it does, and the trace records which (name, env) it was built for.
- `console.log(encryptedKey)` at `lib/stack.ts:58` is not modelled: it prints a credential.
- `onOutput` (`process.stdout.write`) is I/O. It is the `Stdout` token in the options. A `diff` key that is absent is modelled as `false`.
- `lib/log.ts` (winston, timestamps, levels from the environment) is I/O. Logging is a returned trace of (level, text) lines.
- `parseArgs` is I/O: the runner is given its positionals and the refresh flag. The exception `parseArgs` throws on an unknown option is not modelled.
- `await import(stackPath)` is a lookup table. An unknown path makes `start` reject (`ImportRejected`). Errors raised while a module's own code loads are not modelled. A module record holds only the name and environments the runner reads; its `config` and `program` appear as the parameters of `RunInline`.
- What `start` resolves to (the logger, or the engine's result) is not modelled. `Exit` only separates normal settlement from a rejected import.
- async/await: every flow is sequential, and there is no concurrency.
- `JSON.stringify`: numbers are integers only (no fractions, NaN, Infinity or -0). Beyond 2^53 in magnitude the model prints the exact decimal, while JavaScript prints the shortest digits that round back to the double, padded with zeros, and from 10^21 uses the exponent form (`1e+21`). Values that make it throw (BigInt, cycles) are not modelled. `toJSON` is not modelled. Functions and symbols are covered by `Undefined`.
- Start.Normalise: a thrown number beyond 2^53 in magnitude gives its exact decimal, not the rounded or exponent text JavaScript prints (see the `JSON.stringify` line).
- InstanceConventions.UnitTestSecurityGroupRule: ports are integers, printed as exact decimals. Fractional ports such as `80.5` are not modelled. Beyond 2^53 in magnitude JavaScript rounds the printed digits, and from 10^21 it uses the exponent form; the model does neither.
- JavaScript strings are UTF-16; Dafny characters are Unicode scalar values, so lone surrogates cannot occur.
- `getProject()` and `getStack()` come from the Pulumi runtime. They are parameters of `GetProvider`. `aws.Region` is not checked to be a real region.
- The TypeError messages for a missing secrets record follow V8's wording.
- `stacks/sample`, `stacks/demo` and all test files: resource declarations and tests, not orchestration logic.
