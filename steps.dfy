/**
 * The pipeline steps sshGet, sshPut, sshScript, sshCommand, sshRemove and the
 * legacy sshExecuteScript: each step's execution checks its fields in a fixed
 * order and either throws with a field-specific message or hands exactly one
 * operation to the SSH service.
 *
 * The workspace is abstract: `resolve(p)` is the remote path of the workspace
 * child `p`, and `fileExists` and `isDirectory` are asked of resolved paths. The
 * launcher's channel is present or not (`hasChannel`).
 */
module SshSteps {
  import opened Wrappers

  /** The flags every step inherits; by default a step fails on error and is not a dry run. */
  datatype Common = Common(failOnError: bool, dryRun: bool)

  const DefaultCommon: Common := Common(true, false)

  /** The default of the transfer steps' `filterBy`. */
  const DefaultFilterBy: string := "name"

  /** A step request. Fields that are Java strings may be null (`None`). */
  datatype Step =
    | GetStep(common: Common, from: Option<string>, into: Option<string>,
              filterBy: Option<string>, filterRegex: Option<string>, override: bool, verbose: bool)
    | PutStep(common: Common, from: Option<string>, into: Option<string>,
              filterBy: Option<string>, filterRegex: Option<string>)
    | ScriptStep(common: Common, script: Option<string>)
    | CommandStep(common: Common, command: Option<string>, sudo: bool)
    | RemoveStep(common: Common, path: Option<string>)
    | ExecuteScriptStep(common: Common, script: Option<string>)

  /**
   * The steps as their constructors create them: the constructor's arguments
   * as given, and every other field at its default.
   */
  function NewGetStep(from: Option<string>, into: Option<string>): (r: Step)
    ensures r.GetStep? && r.from == from && r.into == into
    ensures r.common.failOnError && !r.common.dryRun
    ensures r.filterBy == Some("name") && r.filterRegex.None?
    ensures !r.override && !r.verbose
  {
    GetStep(DefaultCommon, from, into, Some(DefaultFilterBy), None, false, false)
  }

  function NewPutStep(from: Option<string>, into: Option<string>): (r: Step)
    ensures r.PutStep? && r.from == from && r.into == into
    ensures r.common.failOnError && !r.common.dryRun
    ensures r.filterBy == Some("name") && r.filterRegex.None?
  {
    PutStep(DefaultCommon, from, into, Some(DefaultFilterBy), None)
  }

  function NewCommandStep(command: Option<string>): (r: Step)
    ensures r.CommandStep? && r.command == command
    ensures r.common.failOnError && !r.common.dryRun
    ensures !r.sudo
  {
    CommandStep(DefaultCommon, command, false)
  }

  function NewRemoveStep(path: Option<string>): (r: Step)
    ensures r.RemoveStep? && r.path == path
    ensures r.common.failOnError && !r.common.dryRun
  {
    RemoveStep(DefaultCommon, path)
  }

  function NewScriptStep(script: Option<string>): (r: Step)
    ensures r.ScriptStep? && r.script == script
    ensures r.common.failOnError && !r.common.dryRun
  {
    ScriptStep(DefaultCommon, script)
  }

  /** The workspace as the steps see it; `fileExists` and `isDirectory` are asked of resolved paths. */
  datatype Workspace = Workspace(resolve: string -> string, fileExists: string -> bool, isDirectory: string -> bool)

  datatype Context = Context(ws: Workspace, hasChannel: bool)

  /** The SSH service operation a step hands over, with its exact arguments. */
  datatype Operation =
    | ExecuteCommand(command: string, sudo: bool)
    | ExecuteScriptFromFile(path: string)
    | Get(from: string, into: string, filterBy: Option<string>, filterRegex: Option<string>)
    | Put(from: string, into: string, filterBy: Option<string>, filterRegex: Option<string>)
    | Remove(path: string)

  /** Why a step failed. All but `NullChannel` are thrown as IllegalArgumentException. */
  datatype Error =
    | NullOrEmpty(field: string)
    | AlreadyExists(path: string)
    | DoesNotExist(path: string)
    | IsDirectory(path: string)
    | ChannelUnavailable
    | NullChannel   // a NullPointerException from calling through an absent channel

  /**
   * The outcome of a step's execution: an exception, or one service call made
   * by a service created with the step's flags; `verbose` is the value set on
   * the service before the call, if the step sets it.
   */
  datatype Outcome =
    | Fail(error: Error)
    | Call(failOnError: bool, dryRun: bool, verbose: Option<bool>, op: Operation)

  const ChannelMessage: string :=
    "Unable to get the channel, Perhaps you forgot to surround the code with a step that provides this, such as: node, dockerNode"

  predicate IsIllegalArgument(e: Error)
  {
    !e.NullChannel?
  }

  /** The exception message of an IllegalArgumentException thrown by a step. */
  function Message(e: Error): string
    requires IsIllegalArgument(e)
  {
    match e
    case NullOrEmpty(field) => field + " is null or empty"
    case AlreadyExists(p) => p + " already exist. Please set override to true just in case."
    case DoesNotExist(p) => p + " does not exist."
    case IsDirectory(p) => p + " is a directory."
    case ChannelUnavailable => ChannelMessage
  }

  /** How each message ends, and that what precedes the fixed text is the failure's argument. */
  lemma MessageShape(e: Error)
    requires IsIllegalArgument(e)
    ensures var m := Message(e);
            && |m| >= 2
            && (e.NullOrEmpty? ==> m[|m| - 1] == 'y' && m[..|e.field|] == e.field
                                   && |m| == |e.field| + |" is null or empty"|)
            && (e.AlreadyExists? ==> m[|m| - 2] == 'e' && m[|m| - 1] == '.' && m[..|e.path|] == e.path
                                     && |m| == |e.path| + |" already exist. Please set override to true just in case."|)
            && (e.DoesNotExist? ==> m[|m| - 2] == 't' && m[|m| - 1] == '.' && m[..|e.path|] == e.path
                                    && |m| == |e.path| + |" does not exist."|)
            && (e.IsDirectory? ==> m[|m| - 2] == 'y' && m[|m| - 1] == '.' && m[..|e.path|] == e.path
                                   && |m| == |e.path| + |" is a directory."|)
            && (e.ChannelUnavailable? ==> m[|m| - 1] == 'e')
  {
    var m := Message(e);
    match e
    case NullOrEmpty(f) =>
      var t := " is null or empty";
      assert m == f + t;
      assert m[|m| - 1] == t[|t| - 1];
    case AlreadyExists(p) =>
      var t := " already exist. Please set override to true just in case.";
      assert m == p + t;
      assert m[|m| - 2] == t[|t| - 2] && m[|m| - 1] == t[|t| - 1];
    case DoesNotExist(p) =>
      var t := " does not exist.";
      assert m == p + t;
      assert m[|m| - 2] == t[|t| - 2] && m[|m| - 1] == t[|t| - 1];
    case IsDirectory(p) =>
      var t := " is a directory.";
      assert m == p + t;
      assert m[|m| - 2] == t[|t| - 2] && m[|m| - 1] == t[|t| - 1];
    case ChannelUnavailable =>
      assert m[|m| - 1] == ChannelMessage[|ChannelMessage| - 1];
  }

  /** A step's exception message identifies its failure: different failures never share a message. */
  lemma MessageIdentifiesError(e1: Error, e2: Error)
    requires IsIllegalArgument(e1) && IsIllegalArgument(e2)
    ensures Message(e1) == Message(e2) <==> e1 == e2
  {
    if Message(e1) == Message(e2) {
      MessageShape(e1);
      MessageShape(e2);
    }
  }

  /** hudson.Util.fixEmpty: null for a null or zero-length string (no trimming), the string otherwise. */
  function FixEmpty(s: Option<string>): (r: Option<string>)
    ensures r.None? <==> (s.None? || |s.value| == 0)
    ensures r.Some? ==> r == s
  {
    if s.Some? && |s.value| > 0 then s else None
  }

  predicate IsNullOrEmpty(s: Option<string>)
  {
    FixEmpty(s).None?
  }

  /** Every step except the legacy one checks the channel last, through this helper. */
  function WithChannel(ctx: Context, call: Outcome): Outcome
  {
    if ctx.hasChannel then call else Fail(ChannelUnavailable)
  }

  // ---------------------------------------------------------------------------
  // The step executions
  // ---------------------------------------------------------------------------

  /** sshGet: `from` and `into` must be given; an existing `into` needs `override`. */
  function RunGet(step: Step, ctx: Context): (r: Outcome)
    requires step.GetStep?
    ensures r == Fail(NullOrEmpty("from")) <==> IsNullOrEmpty(step.from)
    ensures r == Fail(NullOrEmpty("into")) <==> !IsNullOrEmpty(step.from) && IsNullOrEmpty(step.into)
    ensures !IsNullOrEmpty(step.from) && !IsNullOrEmpty(step.into) ==>
              var into := ctx.ws.resolve(step.into.value);
              && (r == Fail(AlreadyExists(into)) <==> ctx.ws.fileExists(into) && !step.override)
              && (r == Fail(ChannelUnavailable) <==> (!ctx.ws.fileExists(into) || step.override) && !ctx.hasChannel)
              && (r.Call? <==> (!ctx.ws.fileExists(into) || step.override) && ctx.hasChannel)
              && (r.Call? ==> r == Call(step.common.failOnError, step.common.dryRun, Some(step.verbose),
                                        Get(step.from.value, into, step.filterBy, step.filterRegex)))
  {
    if IsNullOrEmpty(step.from) then Fail(NullOrEmpty("from"))
    else if IsNullOrEmpty(step.into) then Fail(NullOrEmpty("into"))
    else
      var into := ctx.ws.resolve(step.into.value);
      if ctx.ws.fileExists(into) && !step.override then Fail(AlreadyExists(into))
      else WithChannel(ctx, Call(step.common.failOnError, step.common.dryRun, Some(step.verbose),
                                 Get(step.from.value, into, step.filterBy, step.filterRegex)))
  }

  /** sshPut: `from` must be given and exist in the workspace, then `into` must be given. */
  function RunPut(step: Step, ctx: Context): (r: Outcome)
    requires step.PutStep?
    ensures r == Fail(NullOrEmpty("from")) <==> IsNullOrEmpty(step.from)
    ensures !IsNullOrEmpty(step.from) ==>
              var from := ctx.ws.resolve(step.from.value);
              && (r == Fail(DoesNotExist(from)) <==> !ctx.ws.fileExists(from))
              && (r == Fail(NullOrEmpty("into")) <==> ctx.ws.fileExists(from) && IsNullOrEmpty(step.into))
              && (r == Fail(ChannelUnavailable) <==> ctx.ws.fileExists(from) && !IsNullOrEmpty(step.into) && !ctx.hasChannel)
              && (r.Call? <==> ctx.ws.fileExists(from) && !IsNullOrEmpty(step.into) && ctx.hasChannel)
              && (r.Call? ==> r == Call(step.common.failOnError, step.common.dryRun, None,
                                        Put(from, step.into.value, step.filterBy, step.filterRegex)))
  {
    if IsNullOrEmpty(step.from) then Fail(NullOrEmpty("from"))
    else
      var from := ctx.ws.resolve(step.from.value);
      if !ctx.ws.fileExists(from) then Fail(DoesNotExist(from))
      else if IsNullOrEmpty(step.into) then Fail(NullOrEmpty("into"))
      else WithChannel(ctx, Call(step.common.failOnError, step.common.dryRun, None,
                                 Put(from, step.into.value, step.filterBy, step.filterRegex)))
  }

  /** The checks shared by sshScript and sshExecuteScript: given, existing, not a directory. */
  function ScriptFileChecks(script: Option<string>, ws: Workspace): (r: Result<string, Error>)
    ensures r == Failure(NullOrEmpty("script")) <==> IsNullOrEmpty(script)
    ensures !IsNullOrEmpty(script) ==>
              var path := ws.resolve(script.value);
              && (r == Failure(DoesNotExist(path)) <==> !ws.fileExists(path))
              && (r == Failure(IsDirectory(path)) <==> ws.fileExists(path) && ws.isDirectory(path))
              && (r.Success? <==> ws.fileExists(path) && !ws.isDirectory(path))
              && (r.Success? ==> r.value == path)
  {
    if IsNullOrEmpty(script) then Failure(NullOrEmpty("script"))
    else
      var path := ws.resolve(script.value);
      if !ws.fileExists(path) then Failure(DoesNotExist(path))
      else if ws.isDirectory(path) then Failure(IsDirectory(path))
      else Success(path)
  }

  /** sshScript: the script file checks, then the channel, then one call with the resolved path. */
  function RunScript(step: Step, ctx: Context): (r: Outcome)
    requires step.ScriptStep?
    ensures ScriptFileChecks(step.script, ctx.ws).Failure? ==>
              r == Fail(ScriptFileChecks(step.script, ctx.ws).error)
    ensures ScriptFileChecks(step.script, ctx.ws).Success? ==>
              && (r == Fail(ChannelUnavailable) <==> !ctx.hasChannel)
              && (r.Call? <==> ctx.hasChannel)
              && (r.Call? ==> r == Call(step.common.failOnError, step.common.dryRun, None,
                                        ExecuteScriptFromFile(ctx.ws.resolve(step.script.value))))
  {
    match ScriptFileChecks(step.script, ctx.ws)
    case Failure(e) => Fail(e)
    case Success(path) =>
      WithChannel(ctx, Call(step.common.failOnError, step.common.dryRun, None, ExecuteScriptFromFile(path)))
  }

  /** sshCommand: the command must be given, then the channel must be present. */
  function RunCommand(step: Step, ctx: Context): (r: Outcome)
    requires step.CommandStep?
    ensures r == Fail(NullOrEmpty("command")) <==> IsNullOrEmpty(step.command)
    ensures r == Fail(ChannelUnavailable) <==> !IsNullOrEmpty(step.command) && !ctx.hasChannel
    ensures r.Call? <==> !IsNullOrEmpty(step.command) && ctx.hasChannel
    ensures r.Call? ==> r == Call(step.common.failOnError, step.common.dryRun, None,
                                  ExecuteCommand(step.command.value, step.sudo))
  {
    if IsNullOrEmpty(step.command) then Fail(NullOrEmpty("command"))
    else WithChannel(ctx, Call(step.common.failOnError, step.common.dryRun, None,
                               ExecuteCommand(step.command.value, step.sudo)))
  }

  /** sshRemove: the path must be given; it is passed on as written, never resolved or checked. */
  function RunRemove(step: Step, ctx: Context): (r: Outcome)
    requires step.RemoveStep?
    ensures r == Fail(NullOrEmpty("path")) <==> IsNullOrEmpty(step.path)
    ensures r == Fail(ChannelUnavailable) <==> !IsNullOrEmpty(step.path) && !ctx.hasChannel
    ensures r.Call? <==> !IsNullOrEmpty(step.path) && ctx.hasChannel
    ensures r.Call? ==> r == Call(step.common.failOnError, step.common.dryRun, None, Remove(step.path.value))
  {
    if IsNullOrEmpty(step.path) then Fail(NullOrEmpty("path"))
    else WithChannel(ctx, Call(step.common.failOnError, step.common.dryRun, None, Remove(step.path.value)))
  }

  /**
   * The legacy sshExecuteScript: the same file checks as sshScript, but the
   * channel is used without a null check, so an absent channel ends in a
   * NullPointerException.
   */
  function RunExecuteScript(step: Step, ctx: Context): (r: Outcome)
    requires step.ExecuteScriptStep?
    ensures ScriptFileChecks(step.script, ctx.ws).Failure? ==>
              r == Fail(ScriptFileChecks(step.script, ctx.ws).error)
    ensures ScriptFileChecks(step.script, ctx.ws).Success? ==>
              && (r == Fail(NullChannel) <==> !ctx.hasChannel)
              && (r.Call? <==> ctx.hasChannel)
              && (r.Call? ==> r == Call(step.common.failOnError, step.common.dryRun, None,
                                        ExecuteScriptFromFile(ctx.ws.resolve(step.script.value))))
  {
    match ScriptFileChecks(step.script, ctx.ws)
    case Failure(e) => Fail(e)
    case Success(path) =>
      if ctx.hasChannel
      then Call(step.common.failOnError, step.common.dryRun, None, ExecuteScriptFromFile(path))
      else Fail(NullChannel)
  }

  /** A step's execution, by kind. */
  function Run(step: Step, ctx: Context): Outcome
  {
    match step
    case GetStep(_, _, _, _, _, _, _) => RunGet(step, ctx)
    case PutStep(_, _, _, _, _) => RunPut(step, ctx)
    case ScriptStep(_, _) => RunScript(step, ctx)
    case CommandStep(_, _, _) => RunCommand(step, ctx)
    case RemoveStep(_, _) => RunRemove(step, ctx)
    case ExecuteScriptStep(_, _) => RunExecuteScript(step, ctx)
  }

  // ---------------------------------------------------------------------------
  // Properties relating steps, contexts and defaults
  // ---------------------------------------------------------------------------

  /**
   * The channel is checked after every field check: without a channel a step
   * fails with the channel message exactly where it would otherwise have made
   * its call, and with the same error everywhere else.
   */
  lemma ChannelCheckedLast(step: Step, ws: Workspace)
    requires !step.ExecuteScriptStep?
    ensures var with := Run(step, Context(ws, true));
            var without := Run(step, Context(ws, false));
            && (with.Call? ==> without == Fail(ChannelUnavailable))
            && (with.Fail? ==> without == with)
  {
  }

  /**
   * With a channel, the legacy step decides exactly as sshScript does; without
   * one, it differs only where sshScript reports the missing channel, and
   * there it fails with a NullPointerException instead.
   */
  lemma LegacyScriptAgreesWithScriptStep(common: Common, script: Option<string>, ctx: Context)
    ensures ctx.hasChannel ==>
              Run(ExecuteScriptStep(common, script), ctx) == Run(ScriptStep(common, script), ctx)
    ensures !ctx.hasChannel ==>
              Run(ExecuteScriptStep(common, script), ctx) ==
              (if Run(ScriptStep(common, script), ctx) == Fail(ChannelUnavailable) then Fail(NullChannel)
               else Run(ScriptStep(common, script), ctx))
  {
  }

  /** sshCommand and sshRemove never look at the workspace. */
  lemma CommandAndRemoveIgnoreWorkspace(step: Step, ws1: Workspace, ws2: Workspace, hasChannel: bool)
    requires step.CommandStep? || step.RemoveStep?
    ensures Run(step, Context(ws1, hasChannel)) == Run(step, Context(ws2, hasChannel))
  {
  }

  /**
   * sshPut consults the workspace only about the resolved `from`: there is no
   * override flag and no existence check on `into`, which is passed unresolved.
   */
  lemma PutLooksOnlyAtFrom(step: Step, ws1: Workspace, ws2: Workspace, hasChannel: bool)
    requires step.PutStep?
    requires step.from.Some? ==>
               && ws1.resolve(step.from.value) == ws2.resolve(step.from.value)
               && ws1.fileExists(ws1.resolve(step.from.value)) == ws2.fileExists(ws2.resolve(step.from.value))
    ensures Run(step, Context(ws1, hasChannel)) == Run(step, Context(ws2, hasChannel))
  {
  }

  /**
   * sshGet consults the workspace only about the resolved `into` (`from` is
   * passed unresolved), and with `override` set not even about its existence.
   */
  lemma GetLooksOnlyAtInto(step: Step, ws1: Workspace, ws2: Workspace, hasChannel: bool)
    requires step.GetStep?
    requires step.into.Some? ==>
               && ws1.resolve(step.into.value) == ws2.resolve(step.into.value)
               && (!step.override ==> ws1.fileExists(ws1.resolve(step.into.value)) == ws2.fileExists(ws2.resolve(step.into.value)))
    ensures Run(step, Context(ws1, hasChannel)) == Run(step, Context(ws2, hasChannel))
  {
  }

  /** A default sshGet refuses to overwrite an existing `into`, since `override` starts out false. */
  lemma DefaultGetRefusesExistingInto(from: string, into: string, ctx: Context)
    requires from != "" && into != ""
    requires ctx.ws.fileExists(ctx.ws.resolve(into))
    ensures Run(NewGetStep(Some(from), Some(into)), ctx) == Fail(AlreadyExists(ctx.ws.resolve(into)))
    ensures Message(AlreadyExists(ctx.ws.resolve(into)))
            == ctx.ws.resolve(into) + " already exist. Please set override to true just in case."
  {
  }

  /** A default sshGet that passes its checks fetches by name with no regex, after setting verbose off. */
  lemma DefaultGetCall(from: string, into: string, ctx: Context)
    requires from != "" && into != ""
    requires !ctx.ws.fileExists(ctx.ws.resolve(into)) && ctx.hasChannel
    ensures Run(NewGetStep(Some(from), Some(into)), ctx)
            == Call(true, false, Some(false), Get(from, ctx.ws.resolve(into), Some("name"), None))
  {
  }

  /** A default sshPut that passes its checks sends the resolved `from` by name, with no regex. */
  lemma DefaultPutCall(from: string, into: string, ctx: Context)
    requires from != "" && into != ""
    requires ctx.ws.fileExists(ctx.ws.resolve(from)) && ctx.hasChannel
    ensures Run(NewPutStep(Some(from), Some(into)), ctx)
            == Call(true, false, None, Put(ctx.ws.resolve(from), into, Some("name"), None))
  {
  }

  /** A default sshCommand runs its text unchanged without sudo, failing on error, not as a dry run. */
  lemma DefaultCommandCall(command: string, ws: Workspace)
    requires command != ""
    ensures Run(NewCommandStep(Some(command)), Context(ws, true))
            == Call(true, false, None, ExecuteCommand(command, false))
  {
  }

  /** An empty step field fails with its own message, whatever the workspace and channel. */
  lemma EmptyFieldMessages(ctx: Context)
    ensures Run(NewRemoveStep(Some("")), ctx) == Fail(NullOrEmpty("path"))
    ensures Run(NewRemoveStep(None), ctx) == Fail(NullOrEmpty("path"))
    ensures Run(NewCommandStep(Some("")), ctx) == Fail(NullOrEmpty("command"))
    ensures Run(NewScriptStep(Some("")), ctx) == Fail(NullOrEmpty("script"))
    ensures Run(NewGetStep(Some(""), Some("x")), ctx) == Fail(NullOrEmpty("from"))
    ensures Run(NewPutStep(Some(""), Some("x")), ctx) == Fail(NullOrEmpty("from"))
    ensures Message(NullOrEmpty("path")) == "path is null or empty"
  {
  }

  // ---------------------------------------------------------------------------
  // Handing the call to the service
  // ---------------------------------------------------------------------------

  /** One call the service received, with its verbose flag at the time of the call. */
  datatype Invocation = Invocation(op: Operation, verbose: bool)

  /**
   * The SSH service as a step drives it: its verbose flag and the calls it has
   * received. The plugin creates a fresh service for every call; here one
   * object may receive several, and a call that does not set `verbose` carries
   * whatever flag the object held.
   */
  class Service {
    var verbose: bool
    var calls: seq<Invocation>

    constructor (verbose: bool)
      ensures this.verbose == verbose && calls == []
    {
      this.verbose := verbose;
      calls := [];
    }
  }

  /**
   * A step's execution followed by its callable: on failure the service is not
   * touched; on success its verbose flag is set first (sshGet only) and then
   * exactly one call is made.
   */
  method Execute(step: Step, ctx: Context, service: Service) returns (r: Outcome)
    modifies service
    ensures r == Run(step, ctx)
    ensures r.Fail? ==> service.calls == old(service.calls) && service.verbose == old(service.verbose)
    ensures r.Call? ==>
              && service.verbose == (if r.verbose.Some? then r.verbose.value else old(service.verbose))
              && service.calls == old(service.calls) + [Invocation(r.op, service.verbose)]
  {
    r := Run(step, ctx);
    if r.Call? {
      if r.verbose.Some? {
        service.verbose := r.verbose.value;
      }
      service.calls := service.calls + [Invocation(r.op, service.verbose)];
    }
  }
}
