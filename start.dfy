/**
 * lib/start.ts: the command runner. It takes the positionals
 * [stackPath, env, command] and the --refresh flag, loads the stack module,
 * validates the environment and then the command, constructs the stack,
 * optionally refreshes it, runs the command, and turns every exception into
 * one error log line. The module loader is a lookup table, the logger is a
 * log trace the method returns, and the Pulumi engine is a Backend.
 */
module Start {
  import opened Wrappers
  import opened Errors
  import opened Automation
  import opened StackLib
  import Json
  import Text

  // ---- Commands ----

  datatype Command = CPreview | CUp | CDown

  const Commands: seq<string> := ["preview", "up", "down"]

  function CommandName(c: Command): string {
    match c
    case CPreview => "preview"
    case CUp => "up"
    case CDown => "down"
  }

  /** The command a string names, if it is one of preview, up and down. */
  function ParseCommand(s: string): (r: Option<Command>)
    ensures r.Some? <==> s in Commands
    ensures r.Some? ==> CommandName(r.value) == s
  {
    if s == "preview" then Some(CPreview)
    else if s == "up" then Some(CUp)
    else if s == "down" then Some(CDown)
    else None
  }

  /** isCommand */
  predicate IsCommand(s: string) {
    ParseCommand(s).Some?
  }

  lemma CommandNameRoundTrip(c: Command)
    ensures ParseCommand(CommandName(c)) == Some(c)
    ensures IsCommand(CommandName(c))
  {
  }

  /** The command is dispatched to the wrapper method of the same name. */
  function LifecycleOf(c: Command): Lifecycle {
    match c
    case CPreview => LPreview
    case CUp => LUp
    case CDown => LDown
  }

  function CommandOp(c: Command): Op {
    match c
    case CPreview => OpPreview
    case CUp => OpUp
    case CDown => OpDestroy
  }

  // ---- Module, log and result ----

  /** The exports of a stack module the runner reads: its name and allowed environments. */
  datatype StackModule = StackModule(name: string, envs: seq<string>)

  datatype Level = Info | Error
  datatype LogLine = LogLine(level: Level, text: string)

  /** start() either settles normally or rejects because the module could not be imported. */
  datatype Exit = Returned | ImportRejected(path: string)

  /** Everything one invocation does: what it logs, what it asks of the engine, how it ends. */
  datatype Run = Run(logs: seq<LogLine>, calls: seq<Call>, exit: Exit)

  const MissingStackName := "스택 이름 인자는 필수입니다."
  const ConstructPrefix := "스택 구성에 실패했습니다. Pulumi State 접근 권한이 있는지 확인하세요. ("
  const ExecPrefix := "스택 실행에 실패했습니다. Pulumi 로그를 확인하세요. ("

  /** A positional as a template literal prints it: a missing one is `undefined`. */
  function Shown(v: Option<string>): string {
    v.GetOr("undefined")
  }

  function InvalidEnvText(env: Option<string>): string {
    "유효하지 않은 env: " + Shown(env)
  }

  function InvalidCommandText(command: Option<string>): string {
    "유효하지 않은 command: " + Shown(command)
  }

  /** The lines of the usage message after the synopsis. */
  const UsageOptions := " [options]\n  options:\n    -r, --refresh: Command 실행 전 Pulumi Refresh"

  /** `Usage: nx start <name> <envs joined by |> <commands joined by |>` */
  function UsageSynopsis(m: StackModule): string {
    "Usage: nx start " + m.name + " <" + Text.Join(m.envs, "|") + "> <" + Text.Join(Commands, "|") + ">"
  }

  function UsageText(m: StackModule): string {
    UsageSynopsis(m) + UsageOptions
  }

  /**
   * The text logged for a caught exception: an Error's message, otherwise
   * JSON.stringify of the value (which prints as `undefined` for undefined).
   */
  function Normalise(e: Thrown): (m: string)
    ensures e.ErrorObject? ==> m == e.message
    ensures e.Raw? && e.payload.Str? ==> Json.Unquote(m) == Some(e.payload.s)
    ensures e.Raw? && e.payload.Undefined? ==> m == "undefined"
    ensures e.Raw? && !e.payload.Undefined? ==> Some(m) == Json.Stringify(e.payload)
  {
    match e
    case ErrorObject(message) => message
    case Raw(payload) =>
      if payload.Str? then Json.QuoteRoundTrip(payload.s); Json.Stringify(payload).GetOr("undefined")
      else Json.Stringify(payload).GetOr("undefined")
  }

  function Diagnostic(prefix: string, e: Thrown): string {
    prefix + Normalise(e) + ")"
  }

  /** The diagnostic line carries the normalised text between its prefix and the closing parenthesis. */
  lemma DiagnosticCarriesMessage(prefix: string, e: Thrown)
    ensures var d := Diagnostic(prefix, e);
      Text.StartsWith(d, prefix) && d[|d| - 1] == ')' && d[|prefix|..|d| - 1] == Normalise(e)
  {
    var d := Diagnostic(prefix, e);
    assert d[..|prefix|] == prefix;
    assert d[|prefix|..|d| - 1] == Normalise(e);
  }

  // ---- The specification of one invocation ----

  function Positional(ps: seq<string>, i: nat): Option<string> {
    if i < |ps| then Some(ps[i]) else None
  }

  predicate ValidEnv(m: StackModule, env: Option<string>) {
    env.Some? && env.value in m.envs
  }

  predicate ValidCommand(command: Option<string>) {
    command.Some? && IsCommand(command.value)
  }

  /** What happens after construction: the optional refresh, then the command. */
  function ExecPlan(s: Script, refresh: bool, c: Command): (r: (seq<LogLine>, seq<Call>)) {
    var refreshLogs := if refresh then [LogLine(Info, "refresh stack")] else [];
    var refreshCalls := if refresh then [LifecycleCall(LRefresh)] else [];
    if refresh && OpRefresh in s.fails then
      (refreshLogs + [LogLine(Error, Diagnostic(ExecPrefix, s.fails[OpRefresh]))], refreshCalls)
    else
      var logs := refreshLogs + [LogLine(Info, CommandName(c) + " stack")];
      var calls := refreshCalls + [LifecycleCall(LifecycleOf(c))];
      if CommandOp(c) in s.fails then (logs + [LogLine(Error, Diagnostic(ExecPrefix, s.fails[CommandOp(c)]))], calls)
      else (logs, calls)
  }

  /** start() on positionals ps and the refresh flag, with modules and a backend answering by s. */
  function Expected(ps: seq<string>, refresh: bool, modules: map<string, StackModule>, s: Script): Run {
    if |ps| == 0 then Run([LogLine(Error, MissingStackName)], [], Returned)
    else if ps[0] !in modules then Run([], [], ImportRejected(ps[0]))
    else
      var m := modules[ps[0]];
      var env := Positional(ps, 1);
      var command := Positional(ps, 2);
      if !ValidEnv(m, env) then Run([LogLine(Error, InvalidEnvText(env)), LogLine(Error, UsageText(m))], [], Returned)
      else if !ValidCommand(command) then
        Run([LogLine(Error, InvalidCommandText(command)), LogLine(Error, UsageText(m))], [], Returned)
      else
        var p := CreatePlan(s, m.name, env.value);
        if p.failure.Some? then Run([LogLine(Error, Diagnostic(ConstructPrefix, p.failure.value))], p.calls, Returned)
        else
          var x := ExecPlan(s, refresh, ParseCommand(command.value).value);
          Run(x.0, p.calls + x.1, Returned)
  }

  // ---- The runner ----

  /** The try block after construction: the optional refresh, then the command. */
  method Execute(stack: Stack, refresh: bool, c: Command) returns (logs: seq<LogLine>)
    modifies stack.backend
    ensures var x := ExecPlan(stack.backend.script, refresh, c);
      logs == x.0 && stack.backend.calls == old(stack.backend.calls) + x.1
  {
    logs := [];
    var thrown: Option<Thrown>;
    if refresh {
      logs := logs + [LogLine(Info, "refresh stack")];
      thrown := stack.Refresh();
      if thrown.Some? {
        logs := logs + [LogLine(Error, Diagnostic(ExecPrefix, thrown.value))];
        return;
      }
    }
    logs := logs + [LogLine(Info, CommandName(c) + " stack")];
    match c {
      case CPreview => thrown := stack.Preview();
      case CUp => thrown := stack.Up();
      case CDown => thrown := stack.Down();
    }
    if thrown.Some? {
      logs := logs + [LogLine(Error, Diagnostic(ExecPrefix, thrown.value))];
    }
  }

  method Start(positionals: seq<string>, refresh: bool, modules: map<string, StackModule>, backend: Backend)
    returns (logs: seq<LogLine>, exit: Exit)
    modifies backend
    ensures var e := Expected(positionals, refresh, modules, backend.script);
      logs == e.logs && exit == e.exit && backend.calls == old(backend.calls) + e.calls
  {
    logs, exit := [], Returned;
    if |positionals| == 0 {
      logs := logs + [LogLine(Error, MissingStackName)];
      return;
    }
    var stackPath, env, command := positionals[0], Positional(positionals, 1), Positional(positionals, 2);
    if stackPath !in modules {
      exit := ImportRejected(stackPath);
      return;
    }
    var m := modules[stackPath];
    if !(env.Some? && env.value in m.envs) {
      logs := logs + [LogLine(Error, InvalidEnvText(env))];
      logs := logs + [LogLine(Error, UsageText(m))];
      return;
    }
    if !(command.Some? && IsCommand(command.value)) {
      logs := logs + [LogLine(Error, InvalidCommandText(command))];
      logs := logs + [LogLine(Error, UsageText(m))];
      return;
    }
    var created := Stack.Create(backend, m.name, env.value);
    if created.Failure? {
      logs := logs + [LogLine(Error, Diagnostic(ConstructPrefix, created.error))];
      return;
    }
    var stack := created.value;
    logs := Execute(stack, refresh, ParseCommand(command.value).value);
  }

  // ---- Properties of an invocation ----

  function Count(calls: seq<Call>, c: Call): nat {
    if calls == [] then 0 else (if calls[0] == c then 1 else 0) + Count(calls[1..], c)
  }

  lemma {:induction false} CountAppend(a: seq<Call>, b: seq<Call>, c: Call)
    ensures Count(a + b, c) == Count(a, c) + Count(b, c)
  {
    if a == [] {
      assert a + b == b;
    } else {
      assert (a + b)[0] == a[0];
      assert (a + b)[1..] == a[1..] + b;
      CountAppend(a[1..], b, c);
    }
  }

  lemma {:induction false} CountAbsent(calls: seq<Call>, c: Call)
    requires c !in calls
    ensures Count(calls, c) == 0
  {
    if calls != [] {
      assert calls == [calls[0]] + calls[1..];
      CountAbsent(calls[1..], c);
    }
  }

  lemma CountSingleton(x: Call, c: Call)
    ensures Count([x], c) == if x == c then 1 else 0
  {
    assert [x][1..] == [];
  }

  /** Construction never calls a lifecycle operation. */
  lemma CreateCallsNoLifecycle(s: Script, name: string, env: string, l: Lifecycle)
    ensures LifecycleCall(l) !in CreatePlan(s, name, env).calls
    ensures Count(CreatePlan(s, name, env).calls, LifecycleCall(l)) == 0
  {
    var calls := CreatePlan(s, name, env).calls;
    CreateStartsWithSelect(s, name, env);
    var key :| calls <= CreateCalls(name, env, key);
    assert forall i :: 0 <= i < |calls| ==> calls[i] == CreateCalls(name, env, key)[i];
    CountAbsent(calls, LifecycleCall(l));
  }

  /** Without positionals one error is logged and nothing is constructed. */
  lemma NoPositionals(refresh: bool, modules: map<string, StackModule>, s: Script)
    ensures Expected([], refresh, modules, s) == Run([LogLine(Error, MissingStackName)], [], Returned)
  {
  }

  /**
   * An environment that is missing or not allowed logs the invalid value and
   * the usage line, and nothing is constructed; this is checked before the command.
   */
  lemma InvalidEnvRejected(ps: seq<string>, refresh: bool, modules: map<string, StackModule>, s: Script)
    requires |ps| >= 1 && ps[0] in modules && !ValidEnv(modules[ps[0]], Positional(ps, 1))
    ensures Expected(ps, refresh, modules, s) ==
            Run([LogLine(Error, InvalidEnvText(Positional(ps, 1))), LogLine(Error, UsageText(modules[ps[0]]))], [], Returned)
  {
  }

  /** An allowed environment with a command other than preview, up or down logs the command and the usage line. */
  lemma InvalidCommandRejected(ps: seq<string>, refresh: bool, modules: map<string, StackModule>, s: Script)
    requires |ps| >= 1 && ps[0] in modules && ValidEnv(modules[ps[0]], Positional(ps, 1))
    requires !ValidCommand(Positional(ps, 2))
    ensures Expected(ps, refresh, modules, s) ==
            Run([LogLine(Error, InvalidCommandText(Positional(ps, 2))), LogLine(Error, UsageText(modules[ps[0]]))], [], Returned)
  {
  }

  /** The usage line begins with the synopsis naming the stack, its environments and the three commands. */
  lemma UsageShape(m: StackModule)
    ensures UsageSynopsis(m) == "Usage: nx start " + m.name + " <" + Text.Join(m.envs, "|") + "> <" + "preview|up|down" + ">"
    ensures Text.StartsWith(UsageText(m), UsageSynopsis(m))
  {
    assert Text.Join(Commands, "|") == "preview|up|down" by {
      assert Commands[1..] == ["up", "down"];
      assert Commands[1..][1..] == ["down"];
    }
    var u := UsageText(m);
    assert u[..|UsageSynopsis(m)|] == UsageSynopsis(m);
  }

  /** The usage line of the `stacks/instance` module, whose only environment is `common`. */
  lemma InstanceUsage()
    ensures UsageSynopsis(StackModule("instance", ["common"])) == "Usage: nx start instance <common> <preview|up|down>"
  {
    UsageShape(StackModule("instance", ["common"]));
  }

  /** The engine is called only for a known module, an allowed environment and a known command, starting with the stack selection. */
  lemma ConstructOnlyWhenValid(ps: seq<string>, refresh: bool, modules: map<string, StackModule>, s: Script)
    requires Expected(ps, refresh, modules, s).calls != []
    ensures |ps| >= 3 && ps[0] in modules && ps[1] in modules[ps[0]].envs && IsCommand(ps[2])
    ensures Expected(ps, refresh, modules, s).calls[0] == CreateCall(modules[ps[0]].name, ps[1])
  {
    var m := modules[ps[0]];
    var p := CreatePlan(s, m.name, ps[1]);
    CreateStartsWithSelect(s, m.name, ps[1]);
  }

  /** A failed construction is logged once under the construction prefix and nothing else runs. */
  lemma ConstructionFailureReported(ps: seq<string>, refresh: bool, modules: map<string, StackModule>, s: Script, l: Lifecycle)
    requires |ps| >= 3 && ps[0] in modules && ps[1] in modules[ps[0]].envs && IsCommand(ps[2])
    requires CreatePlan(s, modules[ps[0]].name, ps[1]).failure.Some?
    ensures var e := Expected(ps, refresh, modules, s);
      && e.logs == [LogLine(Error, Diagnostic(ConstructPrefix, CreatePlan(s, modules[ps[0]].name, ps[1]).failure.value))]
      && Count(e.calls, LifecycleCall(l)) == 0
  {
    CreateCallsNoLifecycle(s, modules[ps[0]].name, ps[1], l);
  }

  /**
   * After a successful construction, refresh runs exactly once when the flag
   * is set and never otherwise, right after construction; the command runs
   * exactly once, after it, unless the refresh threw.
   */
  lemma RefreshThenCommand(ps: seq<string>, refresh: bool, modules: map<string, StackModule>, s: Script)
    requires |ps| >= 3 && ps[0] in modules && ps[1] in modules[ps[0]].envs && IsCommand(ps[2])
    requires CreatePlan(s, modules[ps[0]].name, ps[1]).failure.None?
    ensures var e := Expected(ps, refresh, modules, s);
      var c := ParseCommand(ps[2]).value;
      var n := |CreatePlan(s, modules[ps[0]].name, ps[1]).calls|;
      && Count(e.calls, LifecycleCall(LRefresh)) == (if refresh then 1 else 0)
      && Count(e.calls, LifecycleCall(LifecycleOf(c))) == (if refresh && OpRefresh in s.fails then 0 else 1)
      && (refresh ==> e.calls[n] == LifecycleCall(LRefresh))
      && (!(refresh && OpRefresh in s.fails) ==> e.calls[|e.calls| - 1] == LifecycleCall(LifecycleOf(c)))
  {
    var m := modules[ps[0]];
    var p := CreatePlan(s, m.name, ps[1]);
    var c := ParseCommand(ps[2]).value;
    var x := ExecPlan(s, refresh, c);
    var e := Expected(ps, refresh, modules, s);
    assert e.calls == p.calls + x.1;
    CountAppend(p.calls, x.1, LifecycleCall(LRefresh));
    CountAppend(p.calls, x.1, LifecycleCall(LifecycleOf(c)));
    CreateCallsNoLifecycle(s, m.name, ps[1], LRefresh);
    CreateCallsNoLifecycle(s, m.name, ps[1], LifecycleOf(c));
    var rc := LifecycleCall(LRefresh);
    var cc := LifecycleCall(LifecycleOf(c));
    assert rc != cc;
    CountSingleton(rc, rc);
    CountSingleton(rc, cc);
    CountSingleton(cc, rc);
    CountSingleton(cc, cc);
    if refresh && OpRefresh !in s.fails {
      assert x.1 == [rc] + [cc];
      CountAppend([rc], [cc], rc);
      CountAppend([rc], [cc], cc);
    }
  }

  /**
   * A refresh or command that throws is logged once, as the last line, under
   * the execution prefix; a failed refresh keeps the command from running.
   */
  lemma ExecutionFailureReported(ps: seq<string>, refresh: bool, modules: map<string, StackModule>, s: Script)
    requires |ps| >= 3 && ps[0] in modules && ps[1] in modules[ps[0]].envs && IsCommand(ps[2])
    requires CreatePlan(s, modules[ps[0]].name, ps[1]).failure.None?
    ensures var e := Expected(ps, refresh, modules, s);
      var c := ParseCommand(ps[2]).value;
      && (refresh && OpRefresh in s.fails ==>
            e.logs == [LogLine(Info, "refresh stack"), LogLine(Error, Diagnostic(ExecPrefix, s.fails[OpRefresh]))]
            && LifecycleCall(LifecycleOf(c)) !in e.calls)
      && (!(refresh && OpRefresh in s.fails) && CommandOp(c) in s.fails ==>
            e.logs[|e.logs| - 1] == LogLine(Error, Diagnostic(ExecPrefix, s.fails[CommandOp(c)])))
      && (!(refresh && OpRefresh in s.fails) && CommandOp(c) !in s.fails ==>
            forall i :: 0 <= i < |e.logs| ==> e.logs[i].level == Info)
  {
    var m := modules[ps[0]];
    var p := CreatePlan(s, m.name, ps[1]);
    var c := ParseCommand(ps[2]).value;
    if refresh && OpRefresh in s.fails {
      CreateCallsNoLifecycle(s, m.name, ps[1], LifecycleOf(c));
      var e := Expected(ps, refresh, modules, s);
      assert e.calls == p.calls + [LifecycleCall(LRefresh)];
    }
  }

  /** The two cases the tests check: an Error's message and a thrown string, quoted. */
  lemma ThrownBoomReported(prefix: string)
    ensures Diagnostic(prefix, ErrorObject("boom")) == prefix + "boom)"
    ensures Diagnostic(prefix, Raw(Json.Str("boom"))) == prefix + "\"boom\")"
  {
    assert Json.Escape("boom") == "boom" by {
      assert "boom"[1..] == "oom";
      assert "oom"[1..] == "om";
      assert "om"[1..] == "m";
      assert "m"[1..] == "";
    }
  }
}
