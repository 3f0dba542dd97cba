/**
 * lib/stack.ts: the naming and tagging convention, the inline program the
 * engine runs, and the Stack wrapper that drives one Pulumi stack through
 * construction (with the secrets-key workaround) and its lifecycle
 * operations, and unwraps its outputs.
 */
module StackLib {
  import opened Wrappers
  import opened Errors
  import opened Automation
  import Json

  // ---- Naming and tagging ----

  datatype ProgramArgs = ProgramArgs(name: string, env: string, tags: map<string, string>)

  /** Environments whose resources carry the bare stack name. */
  const NoPrefixEnvs: seq<string> := ["common", "sandbox"]

  /** The resolved name and tags a stack program receives for (stack, env). */
  function GetProgramArgs(stack: string, env: string): (r: ProgramArgs)
    ensures r.env == env
    ensures r.tags.Keys == {"iac", "stack", "env", "Name"}
    ensures r.tags["iac"] == "pulumi" && r.tags["stack"] == stack && r.tags["env"] == env
    ensures r.tags["Name"] == r.name
  {
    var prefix := if env in NoPrefixEnvs then "" else env + "-";
    var name := prefix + stack;
    ProgramArgs(name, env, map["iac" := "pulumi", "stack" := stack, "env" := env, "Name" := name])
  }

  /** The stack name a resolved name was built from, for a given environment. */
  function StackOf(name: string, env: string): string {
    if env in NoPrefixEnvs then name
    else if |name| >= |env| + 1 then name[|env| + 1..]
    else name
  }

  /** In `common` and `sandbox` the resolved name is the stack name itself. */
  lemma NoPrefixName(stack: string, env: string)
    requires env in NoPrefixEnvs
    ensures GetProgramArgs(stack, env).name == stack
    ensures GetProgramArgs(stack, env).tags["Name"] == stack
  {
  }

  /** In every other environment the resolved name is `env-stack`. */
  lemma PrefixedName(stack: string, env: string)
    requires env !in NoPrefixEnvs
    ensures GetProgramArgs(stack, env).name == env + "-" + stack
  {
  }

  /** The stack name can be read back from the resolved name. */
  lemma StackOfResolvedName(stack: string, env: string)
    ensures StackOf(GetProgramArgs(stack, env).name, env) == stack
  {
    if env !in NoPrefixEnvs {
      var name := env + "-" + stack;
      assert name[|env| + 1..] == stack;
    }
  }

  /** Within one environment, distinct stacks get distinct resolved names. */
  lemma ResolvedNameInjective(s1: string, s2: string, env: string)
    requires GetProgramArgs(s1, env).name == GetProgramArgs(s2, env).name
    ensures s1 == s2
  {
    StackOfResolvedName(s1, env);
    StackOfResolvedName(s2, env);
  }

  /** Across environments names may coincide: `common` and `sandbox`, or hyphens in the parts. */
  lemma NamesShareAcrossEnvs()
    ensures GetProgramArgs("network", "common").name == GetProgramArgs("network", "sandbox").name
    ensures GetProgramArgs("b-c", "a").name == GetProgramArgs("c", "a-b").name
  {
  }

  // ---- The inline program ----

  /** What the user code passed to Stack.create observes when the engine runs the program. */
  datatype UserCall<C> = ConfigCalled(env: string) | ProgramCalled(args: ProgramArgs, config: C)

  datatype InlineRun<C, O> = InlineRun(userCalls: seq<UserCall<C>>, result: Result<O, Thrown>)

  /**
   * Running the deferred program: the config loader is awaited for the
   * environment, then the program gets the resolved arguments and that config.
   * A rejected config loader means the program is never called.
   */
  function RunInline<C, O>(p: InlineProgram, config: string -> Result<C, Thrown>,
                           program: (ProgramArgs, C) -> Result<O, Thrown>): (r: InlineRun<C, O>)
    ensures |r.userCalls| >= 1 && r.userCalls[0] == ConfigCalled(p.env)
    ensures config(p.env).Failure? ==> r.userCalls == [ConfigCalled(p.env)] && r.result == Failure(config(p.env).error)
    ensures config(p.env).Success? ==>
              && |r.userCalls| == 2
              && r.userCalls[1].ProgramCalled?
              && r.userCalls[1].args == GetProgramArgs(p.name, p.env)
              && r.userCalls[1].config == config(p.env).value
              && r.result == program(r.userCalls[1].args, r.userCalls[1].config)
  {
    var args := GetProgramArgs(p.name, p.env);
    match config(p.env)
    case Failure(e) => InlineRun([ConfigCalled(p.env)], Failure(e))
    case Success(c) => InlineRun([ConfigCalled(p.env), ProgramCalled(args, c)], program(args, c))
  }

  // ---- Outputs ----

  /** The engine's outputs with the secret flags dropped; secret outputs are kept. */
  function Unwrap(raw: map<string, OutputValue>): (r: map<string, Json.Json>)
    ensures r.Keys == raw.Keys
    ensures forall k :: k in raw ==> r[k] == raw[k].value
  {
    map k | k in raw :: raw[k].value
  }

  /** The engine's view of a program result: every value paired with a secret flag. */
  function Wrap(o: map<string, Json.Json>, secret: string -> bool): (raw: map<string, OutputValue>)
    ensures raw.Keys == o.Keys
  {
    map k | k in o :: OutputValue(o[k], secret(k))
  }

  /** outputs() gives back exactly what the program returned, whatever is flagged secret. */
  lemma UnwrapWrap(o: map<string, Json.Json>, secret: string -> bool)
    ensures Unwrap(Wrap(o, secret)) == o
  {
    var u := Unwrap(Wrap(o, secret));
    assert u.Keys == o.Keys;
    assert forall k :: k in u ==> u[k] == o[k];
  }

  /** The reduce over Object.entries that builds the unwrapped outputs. */
  method ReduceOutputs(raw: map<string, OutputValue>) returns (acc: map<string, Json.Json>)
    ensures acc == Unwrap(raw)
  {
    acc := map[];
    var todo := raw.Keys;
    while todo != {}
      invariant todo <= raw.Keys
      invariant acc.Keys == raw.Keys - todo
      invariant forall k :: k in acc ==> acc[k] == raw[k].value
      decreases todo
    {
      var k :| k in todo;
      acc := acc[k := raw[k].value];
      todo := todo - {k};
    }
  }

  // ---- Construction ----

  const DefaultRegion := "ap-northeast-2"

  /** The configuration create writes once the key is saved. */
  const RegionConfig: map<string, ConfigValue> := map["aws:region" := ConfigValue(DefaultRegion)]

  function CreateCall(name: string, env: string): Call {
    CreateOrSelectStack(name, env, InlineProgram(name, env), ProjectSettings(name, "nodejs"))
  }

  /**
   * The encrypted key read through the secrets-provider and state records:
   * a missing provider or state record throws a TypeError, a missing key is undefined.
   */
  function EncryptedKey(d: Deployment): (r: Result<Option<string>, Thrown>)
    ensures r.Success? <==> d.secretsProviders.Some? && d.secretsProviders.value.state.Some?
    ensures r.Success? ==> r.value == d.secretsProviders.value.state.value.encryptedKey
    ensures r.Failure? ==> r.error.ErrorObject?
  {
    match d.secretsProviders
    case None => Failure(ErrorObject("Cannot read properties of undefined (reading 'state')"))
    case Some(sp) =>
      match sp.state
      case None => Failure(ErrorObject("Cannot read properties of undefined (reading 'encryptedkey')"))
      case Some(st) => Success(st.encryptedKey)
  }

  /** The calls create makes and the exception it ends with, if any. */
  datatype Phase = Phase(calls: seq<Call>, failure: Option<Thrown>)

  /** The four calls of a construction that goes through, saving `key`. */
  function CreateCalls(name: string, env: string, key: Option<string>): seq<Call> {
    [CreateCall(name, env), ExportStack, SaveStackSettings(env, StackSettings(key)), SetAllConfig(RegionConfig)]
  }

  /** What Stack.create does against a backend answering by script s. */
  function CreatePlan(s: Script, name: string, env: string): Phase {
    var c1 := CreateCall(name, env);
    if OpCreateOrSelect in s.fails then Phase([c1], Some(s.fails[OpCreateOrSelect]))
    else if OpExport in s.fails then Phase([c1, ExportStack], Some(s.fails[OpExport]))
    else
      match EncryptedKey(s.deployment)
      case Failure(e) => Phase([c1, ExportStack], Some(e))
      case Success(key) =>
        var c3 := SaveStackSettings(env, StackSettings(key));
        if OpSaveSettings in s.fails then Phase([c1, ExportStack, c3], Some(s.fails[OpSaveSettings]))
        else Phase([c1, ExportStack, c3, SetAllConfig(RegionConfig)], Fault(s, OpSetAllConfig))
  }

  /**
   * Construction always starts by creating or selecting the stack named
   * (project = name, stack = env), and makes a prefix of the four calls.
   */
  lemma CreateStartsWithSelect(s: Script, name: string, env: string)
    ensures var p := CreatePlan(s, name, env);
      && 1 <= |p.calls| <= 4
      && p.calls[0] == CreateOrSelectStack(name, env, InlineProgram(name, env), ProjectSettings(name, "nodejs"))
      && (exists key :: p.calls <= CreateCalls(name, env, key))
  {
    var p := CreatePlan(s, name, env);
    match EncryptedKey(s.deployment)
    case Failure(_) => assert p.calls <= CreateCalls(name, env, None);
    case Success(key) => assert p.calls <= CreateCalls(name, env, key);
  }

  /**
   * Construction succeeds exactly when no call throws and the key record is
   * present; then the four calls run in order and the key saved for env is
   * the exported one.
   */
  lemma CreateSucceeds(s: Script, name: string, env: string)
    ensures var p := CreatePlan(s, name, env);
      p.failure.None? <==>
        && OpCreateOrSelect !in s.fails && OpExport !in s.fails
        && OpSaveSettings !in s.fails && OpSetAllConfig !in s.fails
        && EncryptedKey(s.deployment).Success?
    ensures var p := CreatePlan(s, name, env);
      p.failure.None? ==> p.calls == CreateCalls(name, env, EncryptedKey(s.deployment).value)
  {
  }

  /**
   * The exported key reaches the settings before any configuration is set:
   * wherever setAllConfig occurs, the call just before it saved the exported key.
   */
  lemma KeySavedBeforeConfig(s: Script, name: string, env: string, i: nat)
    requires i < |CreatePlan(s, name, env).calls| && CreatePlan(s, name, env).calls[i].SetAllConfig?
    ensures EncryptedKey(s.deployment).Success?
    ensures i >= 1 && CreatePlan(s, name, env).calls[i - 1] ==
            SaveStackSettings(env, StackSettings(EncryptedKey(s.deployment).value))
  {
  }

  /** A construction that fails makes no call after the one that threw. */
  lemma CreateStopsAtFailure(s: Script, name: string, env: string)
    requires CreatePlan(s, name, env).failure.Some?
    ensures var p := CreatePlan(s, name, env);
      var last := p.calls[|p.calls| - 1];
      (OpOf(last) in s.fails && p.failure.value == s.fails[OpOf(last)])
      || (last == ExportStack && p.failure == Some(EncryptedKey(s.deployment).error))
    ensures var p := CreatePlan(s, name, env);
      forall i :: 0 <= i < |p.calls| - 1 ==> OpOf(p.calls[i]) !in s.fails
  {
  }

  // ---- Lifecycle ----

  datatype Lifecycle = LRefresh | LPreview | LUp | LDown

  /** Always-coloured output streamed to stdout, shared by every lifecycle operation. */
  const StreamOpts := Opts("always", Stdout, false)

  /** The one backend call each lifecycle method makes. */
  function LifecycleCall(l: Lifecycle): (c: Call)
    ensures c.Refresh? || c.Preview? || c.Up? || c.Destroy?
  {
    match l
    case LRefresh => Refresh(StreamOpts)
    case LPreview => Preview(StreamOpts.(diff := true))
    case LUp => Up(StreamOpts)
    case LDown => Destroy(StreamOpts)
  }

  function LifecycleOpts(c: Call): Opts
    requires c.Refresh? || c.Preview? || c.Up? || c.Destroy?
  {
    match c
    case Refresh(o) => o
    case Preview(o) => o
    case Up(o) => o
    case Destroy(o) => o
  }

  /**
   * refresh, preview, up and down map one-to-one onto the engine's refresh,
   * preview, up and destroy; all stream colour output to stdout and only
   * preview asks for a diff.
   */
  lemma LifecycleCallShape(l: Lifecycle, m: Lifecycle)
    ensures LifecycleOpts(LifecycleCall(l)).color == "always"
    ensures LifecycleOpts(LifecycleCall(l)).onOutput == Stdout
    ensures LifecycleOpts(LifecycleCall(l)).diff <==> l == LPreview
    ensures OpOf(LifecycleCall(l)) == OpOf(LifecycleCall(m)) <==> l == m
    ensures l == LDown <==> LifecycleCall(l).Destroy?
    ensures LifecycleCall(LRefresh).Refresh? && LifecycleCall(LPreview).Preview? && LifecycleCall(LUp).Up?
  {
  }

  /** The wrapper around one Pulumi stack. */
  class Stack {
    const backend: Backend
    /** private readonly opts */
    const opts: Opts := StreamOpts

    constructor (backend: Backend)
      ensures this.backend == backend && opts == StreamOpts
    {
      this.backend := backend;
    }

    /** Stack.create: select the stack, re-save its secrets key, set the region. */
    static method Create(backend: Backend, name: string, env: string) returns (r: Result<Stack, Thrown>)
      modifies backend
      ensures backend.calls == old(backend.calls) + CreatePlan(backend.script, name, env).calls
      ensures r.Failure? <==> CreatePlan(backend.script, name, env).failure.Some?
      ensures r.Failure? ==> r.error == CreatePlan(backend.script, name, env).failure.value
      ensures r.Success? ==> fresh(r.value) && r.value.backend == backend && r.value.opts == StreamOpts
    {
      var t := backend.Invoke(CreateCall(name, env));
      if t.Some? { return Failure(t.value); }
      var exported := backend.ExportStack();
      if exported.Failure? { return Failure(exported.error); }
      var key := EncryptedKey(exported.value);
      if key.Failure? { return Failure(key.error); }
      t := backend.Invoke(SaveStackSettings(env, StackSettings(key.value)));
      if t.Some? { return Failure(t.value); }
      t := backend.Invoke(SetAllConfig(RegionConfig));
      if t.Some? { return Failure(t.value); }
      var stack := new Stack(backend);
      r := Success(stack);
    }

    method Refresh() returns (r: Option<Thrown>)
      modifies backend
      ensures backend.calls == old(backend.calls) + [LifecycleCall(LRefresh)]
      ensures r == Fault(backend.script, OpRefresh)
    {
      r := backend.Invoke(Call.Refresh(opts));
    }

    method Preview() returns (r: Option<Thrown>)
      modifies backend
      ensures backend.calls == old(backend.calls) + [LifecycleCall(LPreview)]
      ensures r == Fault(backend.script, OpPreview)
    {
      r := backend.Invoke(Call.Preview(opts.(diff := true)));
    }

    method Up() returns (r: Option<Thrown>)
      modifies backend
      ensures backend.calls == old(backend.calls) + [LifecycleCall(LUp)]
      ensures r == Fault(backend.script, OpUp)
    {
      r := backend.Invoke(Call.Up(opts));
    }

    method Down() returns (r: Option<Thrown>)
      modifies backend
      ensures backend.calls == old(backend.calls) + [LifecycleCall(LDown)]
      ensures r == Fault(backend.script, OpDestroy)
    {
      r := backend.Invoke(Call.Destroy(opts));
    }

    /** outputs(): the engine's outputs, unwrapped. */
    method Outputs() returns (r: Result<map<string, Json.Json>, Thrown>)
      modifies backend
      ensures backend.calls == old(backend.calls) + [Call.Outputs]
      ensures OpOutputs in backend.script.fails ==> r == Failure(backend.script.fails[OpOutputs])
      ensures OpOutputs !in backend.script.fails ==> r == Success(Unwrap(backend.script.outputs))
    {
      var raw := backend.Outputs();
      if raw.Failure? { return Failure(raw.error); }
      var values := ReduceOutputs(raw.value);
      r := Success(values);
    }
  }
}
