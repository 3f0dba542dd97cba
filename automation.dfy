/**
 * The boundary of the Pulumi Automation API as lib/stack.ts uses it:
 * LocalWorkspace.createOrSelectStack, and on the returned stack exportStack,
 * workspace.saveStackSettings, setAllConfig, refresh, preview, up, destroy
 * and outputs. The engine itself is not modelled: a Backend records every
 * call it receives, in order, and answers from a fixed script that says
 * which operations throw and what the exported deployment and the raw
 * outputs are.
 */
module Automation {
  import opened Wrappers
  import opened Errors
  import Json

  /** The `onOutput` sink wired to process.stdout.write. */
  datatype Sink = Stdout

  /** Options passed to a lifecycle operation; `diff` false stands for the absent key. */
  datatype Opts = Opts(color: string, onOutput: Sink, diff: bool)

  datatype ProjectSettings = ProjectSettings(name: string, runtime: string)

  /** The deferred inline program handed to the engine, identified by the stack name and environment it captures. */
  datatype InlineProgram = InlineProgram(name: string, env: string)

  /** The secrets-provider metadata of an exported deployment, down to the encrypted key; each level may be missing. */
  datatype SecretsState = SecretsState(encryptedKey: Option<string>)
  datatype SecretsProviders = SecretsProviders(state: Option<SecretsState>)
  datatype Deployment = Deployment(secretsProviders: Option<SecretsProviders>)

  /** Stack settings written by saveStackSettings; None is an undefined key. */
  datatype StackSettings = StackSettings(encryptedKey: Option<string>)

  datatype ConfigValue = ConfigValue(value: string)

  /** An output as the engine reports it. */
  datatype OutputValue = OutputValue(value: Json.Json, secret: bool)

  /** The operations of the boundary, without their arguments. */
  datatype Op =
    | OpCreateOrSelect | OpExport | OpSaveSettings | OpSetAllConfig
    | OpRefresh | OpPreview | OpUp | OpDestroy | OpOutputs

  /** One call received by the backend, with its arguments. */
  datatype Call =
    | CreateOrSelectStack(projectName: string, stackName: string, program: InlineProgram, settings: ProjectSettings)
    | ExportStack
    | SaveStackSettings(settingsStack: string, stackSettings: StackSettings)
    | SetAllConfig(config: map<string, ConfigValue>)
    | Refresh(refreshOpts: Opts)
    | Preview(previewOpts: Opts)
    | Up(upOpts: Opts)
    | Destroy(destroyOpts: Opts)
    | Outputs

  /** How a backend answers: which operations throw, and the data it holds. */
  datatype Script = Script(fails: map<Op, Thrown>, deployment: Deployment, outputs: map<string, OutputValue>)

  /** The exception an operation throws under a script, if any. */
  function Fault(s: Script, op: Op): (r: Option<Thrown>)
    ensures r.Some? <==> op in s.fails
    ensures r.Some? ==> r.value == s.fails[op]
  {
    if op in s.fails then Some(s.fails[op]) else None
  }

  function OpOf(c: Call): Op {
    match c
    case CreateOrSelectStack(_, _, _, _) => OpCreateOrSelect
    case ExportStack => OpExport
    case SaveStackSettings(_, _) => OpSaveSettings
    case SetAllConfig(_) => OpSetAllConfig
    case Refresh(_) => OpRefresh
    case Preview(_) => OpPreview
    case Up(_) => OpUp
    case Destroy(_) => OpDestroy
    case Outputs => OpOutputs
  }

  class Backend {
    const script: Script
    /** Every call received so far, oldest first. */
    var calls: seq<Call>

    constructor (script: Script)
      ensures this.script == script && calls == []
    {
      this.script := script;
      calls := [];
    }

    /** Receives one call that returns nothing of interest; throws if the script says so. */
    method Invoke(c: Call) returns (r: Option<Thrown>)
      modifies this
      ensures calls == old(calls) + [c]
      ensures r == Fault(script, OpOf(c))
    {
      calls := calls + [c];
      r := Fault(script, OpOf(c));
    }

    method ExportStack() returns (r: Result<Deployment, Thrown>)
      modifies this
      ensures calls == old(calls) + [Call.ExportStack]
      ensures r == if OpExport in script.fails then Failure(script.fails[OpExport]) else Success(script.deployment)
    {
      calls := calls + [Call.ExportStack];
      r := if OpExport in script.fails then Failure(script.fails[OpExport]) else Success(script.deployment);
    }

    method Outputs() returns (r: Result<map<string, OutputValue>, Thrown>)
      modifies this
      ensures calls == old(calls) + [Call.Outputs]
      ensures r == if OpOutputs in script.fails then Failure(script.fails[OpOutputs]) else Success(script.outputs)
    {
      calls := calls + [Call.Outputs];
      r := if OpOutputs in script.fails then Failure(script.fails[OpOutputs]) else Success(script.outputs);
    }
  }
}
