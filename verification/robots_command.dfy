/**
 * The `command:robots` console command: validates the action argument
 * against an optional allow-list and the action enumeration, runs the one
 * handler it names, and folds every way that can end into an exit status,
 * always closing with a blank line and the end-of-command hook.
 */
module RobotsCommandModel {
  import opened Common
  import opened RobotsOption
  import opened RobotsActionEnum
  import opened RobotsOptionsModel
  import opened RobotsTrait
  import opened CreateAction
  import opened RemoveAction

  // ---------------------------------------------------------------------
  // Validation and dispatch
  // ---------------------------------------------------------------------

  /** The handler methods an action can name. */
  datatype Handler = CreateMethod | RemoveMethod

  /** The handler methods the command has, by the action they implement. */
  const Methods: map<Action, Handler> := map[Create := CreateMethod, Remove := RemoveMethod]

  /** `$this->actions`: anything that is not an array, or an array of values. */
  datatype AllowList = NotArray | Items(items: seq<PhpValue>)

  /** Only a non-empty array restricts the actions. */
  predicate Restricts(allow: AllowList) {
    allow.Items? && |allow.items| > 0
  }

  /** The allow-list check, with `in_array`'s strict comparison. */
  predicate Permits(allow: AllowList, action: string) {
    !Restricts(allow) || Str(action) in allow.items
  }

  /** `$input->getArgument('action') ?? ''`. */
  function ActionArgument(arg: Option<string>): (action: string)
    ensures arg.Some? ==> action == arg.value
    ensures arg.None? ==> action == "" && !Includes(action)
  {
    if arg.Some? then arg.value else ""
  }

  datatype Decision = Invoke(handler: Handler) | Reject(failure: Failure)

  /**
   * The three checks in order: the allow-list, the enumeration, then the
   * handler table.
   */
  function Dispatch(allow: AllowList, table: map<Action, Handler>, action: string): (d: Decision)
    ensures d.Invoke? <==> Permits(allow, action) && Includes(action) && Parse(action).value in table
    ensures d.Invoke? ==> d.handler == table[Parse(action).value]
    ensures d.Reject? ==> d.failure in {NotAllowed(action), NotValid(action), NoMethod(action)}
  {
    if !Permits(allow, action) then Reject(NotAllowed(action))
    else
      match Parse(action)
      case None => Reject(NotValid(action))
      case Some(a) => if a in table then Invoke(table[a]) else Reject(NoMethod(action))
  }

  /** A non-empty allow-list that does not hold the action rejects it first. */
  lemma DispatchRejectsUnlisted(allow: AllowList, table: map<Action, Handler>, action: string)
    requires Restricts(allow) && Str(action) !in allow.items
    ensures Dispatch(allow, table, action) == Reject(NotAllowed(action))
  {
  }

  /** An empty or non-array allow-list restricts nothing: only the enumeration and the table decide. */
  lemma DispatchUnrestricted(allow: AllowList, table: map<Action, Handler>, action: string)
    requires !Restricts(allow)
    ensures Dispatch(allow, table, action) == Dispatch(NotArray, table, action)
    ensures Dispatch(allow, table, action).Invoke? <==> Includes(action) && Parse(action).value in table
  {
  }

  /** A token outside the enumeration is rejected even when the allow-list lets it through. */
  lemma DispatchRejectsInvalid(allow: AllowList, table: map<Action, Handler>, action: string)
    requires Permits(allow, action) && !Includes(action)
    ensures Dispatch(allow, table, action) == Reject(NotValid(action))
  {
  }

  /** A valid, permitted action runs the handler the table holds for it. */
  lemma DispatchInvokesHandler(allow: AllowList, table: map<Action, Handler>, a: Action)
    requires Permits(allow, Token(a)) && a in table
    ensures Dispatch(allow, table, Token(a)) == Invoke(table[a])
  {
    ParseToken(a);
  }

  /** A valid, permitted action with no handler fails, distinctly from an invalid one. */
  lemma DispatchReportsMissingHandler(allow: AllowList, table: map<Action, Handler>, a: Action)
    requires Permits(allow, Token(a)) && a !in table
    ensures Dispatch(allow, table, Token(a)) == Reject(NoMethod(Token(a)))
    ensures NoMethod(Token(a)) != NotValid(Token(a))
  {
    ParseToken(a);
  }

  /** Every action of the enumeration has its handler, so the missing-handler case never arises. */
  lemma MethodsCoverActions(allow: AllowList, action: string)
    ensures forall a: Action :: a in Methods
    ensures Dispatch(allow, Methods, action) != Reject(NoMethod(action))
  {
    forall a: Action ensures a in Methods {
      match a
      case Create =>
      case Remove =>
    }
  }

  // ---------------------------------------------------------------------
  // Exit status and console trace
  // ---------------------------------------------------------------------

  /**
   * The status `execute` hands to `endCommand`: what the handler returned,
   * SUCCESS for the controlled early exit, FAILURE for anything thrown.
   */
  function ExitStatus(o: Outcome): (status: int)
    ensures o.Returned? ==> status == o.status
    ensures status == SUCCESS <==> o.EarlyExit? || o == Returned(SUCCESS)
    ensures status == FAILURE <==> o.Raised? || o == Returned(FAILURE)
  {
    match o
    case Returned(status) => status
    case EarlyExit => SUCCESS
    case Raised(_) => FAILURE
  }

  /** One run of `execute`: rejected before any handler, or one handler run. */
  datatype Episode = Rejected(failure: Failure) | Ran(handler: Handler, run: HandlerRun)

  /** How the guarded block of `execute` ended. */
  function Final(e: Episode): Outcome {
    match e
    case Rejected(f) => Raised(f)
    case Ran(_, run) => run.outcome
  }

  /** What `execute` leaves behind: handler calls, file calls and console output. */
  datatype Event =
    | Invoked(handler: Handler)
    | FileCalled(call: FileCall)
    | ErrorLine(failure: Failure)
    | NewLine
    | EndCommand(status: int)

  /** The catch blocks and the lines after them. */
  function Closing(o: Outcome): seq<Event> {
    (if o.Raised? then [ErrorLine(o.failure)] else []) + [NewLine, EndCommand(ExitStatus(o))]
  }

  /** What the guarded block leaves behind: the handler call and its file call, if any. */
  function Prefix(e: Episode): seq<Event> {
    match e
    case Rejected(_) => []
    case Ran(h, run) => [Invoked(h)] + (if run.call.Some? then [FileCalled(run.call.value)] else [])
  }

  function Events(e: Episode): seq<Event> {
    Prefix(e) + Closing(Final(e))
  }

  datatype Tag = InvokedTag | FileTag | ErrorTag | NewLineTag | EndTag

  function TagOf(ev: Event): Tag {
    match ev
    case Invoked(_) => InvokedTag
    case FileCalled(_) => FileTag
    case ErrorLine(_) => ErrorTag
    case NewLine => NewLineTag
    case EndCommand(_) => EndTag
  }

  /** The number of events of one kind. */
  function Count(s: seq<Event>, t: Tag): nat {
    if s == [] then 0 else (if TagOf(s[0]) == t then 1 else 0) + Count(s[1..], t)
  }

  lemma {:induction false} CountAppend(a: seq<Event>, b: seq<Event>, t: Tag)
    ensures Count(a + b, t) == Count(a, t) + Count(b, t)
  {
    if a == [] {
      assert a + b == b;
    } else {
      assert (a + b)[1..] == a[1..] + b;
      CountAppend(a[1..], b, t);
    }
  }

  lemma CountSingle(ev: Event, t: Tag)
    ensures Count([ev], t) == if TagOf(ev) == t then 1 else 0
  {
    assert [ev][1..] == [];
  }

  /** The closing lines hold one error line exactly when something was thrown, then the blank line and the hook. */
  lemma ClosingCount(o: Outcome, t: Tag)
    ensures Count(Closing(o), t) ==
      (if o.Raised? && t == ErrorTag then 1 else 0) + (if t == NewLineTag then 1 else 0) + (if t == EndTag then 1 else 0)
  {
    var errors: seq<Event> := if o.Raised? then [ErrorLine(o.failure)] else [];
    var blank, end := [NewLine], [EndCommand(ExitStatus(o))];
    assert Closing(o) == errors + (blank + end);
    CountAppend(errors, blank + end, t);
    CountAppend(blank, end, t);
    CountSingle(NewLine, t);
    CountSingle(EndCommand(ExitStatus(o)), t);
    if o.Raised? {
      CountSingle(ErrorLine(o.failure), t);
    } else {
      assert Count(errors, t) == 0;
    }
  }

  /**
   * Every run of `execute`: at most one handler invoked, first, and only
   * when dispatch accepted the action; at most one file call and only from
   * that handler; exactly one error line when and only when something was
   * thrown other than the early exit; and always a blank line followed by
   * `endCommand` with the final status.
   */
  lemma {:induction false} EventsShape(e: Episode)
    ensures Count(Events(e), InvokedTag) == (if e.Ran? then 1 else 0)
    ensures e.Ran? ==> Events(e)[0] == Invoked(e.handler)
    ensures Count(Events(e), FileTag) == (if e.Ran? && e.run.call.Some? then 1 else 0)
    ensures Count(Events(e), ErrorTag) == (if Final(e).Raised? then 1 else 0)
    ensures Count(Events(e), EndTag) == 1
    ensures |Events(e)| >= 2
    ensures Events(e)[|Events(e)| - 2..] == [NewLine, EndCommand(ExitStatus(Final(e)))]
  {
    forall t: Tag {
      ClosingCount(Final(e), t);
    }
    match e
    case Rejected(f) =>
      assert Events(e) == Closing(Raised(f));
    case Ran(h, run) =>
      var head: seq<Event> := [Invoked(h)];
      var call: seq<Event> := if run.call.Some? then [FileCalled(run.call.value)] else [];
      forall t: Tag ensures Count(Events(e), t) ==
        (if t == InvokedTag then 1 else 0) + (if t == FileTag && run.call.Some? then 1 else 0) +
        Count(Closing(run.outcome), t)
      {
        assert Events(e) == (head + call) + Closing(run.outcome);
        CountAppend(head + call, Closing(run.outcome), t);
        CountAppend(head, call, t);
        CountSingle(Invoked(h), t);
        if run.call.Some? {
          CountSingle(FileCalled(run.call.value), t);
        } else {
          assert Count(call, t) == 0;
        }
      }
      ClosingCount(run.outcome, InvokedTag);
      ClosingCount(run.outcome, FileTag);
      assert Count(Events(e), InvokedTag) == 1;
  }

  // ---------------------------------------------------------------------
  // The command as it runs with its own handlers
  // ---------------------------------------------------------------------

  /** What the handler named by the dispatch does. */
  function RunOf(h: Handler, env: Env, lib: Library, current: Settings, input: Input, step: FileStep): HandlerRun {
    match h
    case CreateMethod => CreateRun(env, lib, current, input, step)
    case RemoveMethod => RemoveRun(env, lib, current, input, step)
  }

  /** One run of `execute` with the command's own handler table. */
  function EpisodeFor(allow: AllowList, action: string, env: Env, lib: Library, current: Settings,
                      input: Input, step: FileStep): Episode {
    match Dispatch(allow, Methods, action)
    case Reject(f) => Rejected(f)
    case Invoke(h) => Ran(h, RunOf(h, env, lib, current, input, step))
  }

  /** With its own handlers the command only ever exits with SUCCESS or FAILURE. */
  lemma StatusIsExitCode(allow: AllowList, action: string, env: Env, lib: Library, current: Settings,
                         input: Input, step: FileStep)
    ensures var status := ExitStatus(Final(EpisodeFor(allow, action, env, lib, current, input, step)));
      status == SUCCESS || status == FAILURE
  {
  }

  /** An action the allow-list does not hold fails without running a handler or touching a file. */
  lemma UnlistedActionFails(allow: AllowList, action: string, env: Env, lib: Library, current: Settings,
                            input: Input, step: FileStep)
    requires Restricts(allow) && Str(action) !in allow.items
    ensures var e := EpisodeFor(allow, action, env, lib, current, input, step);
      e == Rejected(NotAllowed(action)) && ExitStatus(Final(e)) == FAILURE &&
      Count(Events(e), InvokedTag) == 0 && Count(Events(e), FileTag) == 0 &&
      ErrorLine(NotAllowed(action)) in Events(e)
  {
    var e := EpisodeFor(allow, action, env, lib, current, input, step);
    EventsShape(e);
    assert Events(e)[0] == ErrorLine(NotAllowed(action));
  }

  /** A token outside the enumeration fails without running a handler or touching a file. */
  lemma InvalidActionFails(allow: AllowList, action: string, env: Env, lib: Library, current: Settings,
                           input: Input, step: FileStep)
    requires Permits(allow, action) && !Includes(action)
    ensures var e := EpisodeFor(allow, action, env, lib, current, input, step);
      e == Rejected(NotValid(action)) && ExitStatus(Final(e)) == FAILURE &&
      Count(Events(e), InvokedTag) == 0 && Count(Events(e), FileTag) == 0
  {
    EventsShape(EpisodeFor(allow, action, env, lib, current, input, step));
  }

  /** A missing action argument is the empty string, which no check lets through. */
  lemma MissingActionFails(allow: AllowList, env: Env, lib: Library, current: Settings,
                           input: Input, step: FileStep)
    ensures var e := EpisodeFor(allow, ActionArgument(None), env, lib, current, input, step);
      e.Rejected? && ExitStatus(Final(e)) == FAILURE && Count(Events(e), InvokedTag) == 0
  {
    EventsShape(EpisodeFor(allow, ActionArgument(None), env, lib, current, input, step));
  }

  /**
   * A permitted action runs exactly its own handler, exactly once, and the
   * handler's result decides the status.
   */
  lemma ValidActionRunsItsHandlerOnce(allow: AllowList, a: Action, env: Env, lib: Library, current: Settings,
                                      input: Input, step: FileStep)
    requires Permits(allow, Token(a))
    ensures var e := EpisodeFor(allow, Token(a), env, lib, current, input, step);
      e == Ran(Methods[a], RunOf(Methods[a], env, lib, current, input, step)) &&
      Count(Events(e), InvokedTag) == 1 && Events(e)[0] == Invoked(Methods[a]) &&
      ExitStatus(Final(e)) == ExitStatus(e.run.outcome)
  {
    ParseToken(a);
    EventsShape(EpisodeFor(allow, Token(a), env, lib, current, input, step));
  }

  /** An early exit from the file step reads as success, with no error line. */
  lemma EarlyExitSucceeds(allow: AllowList, a: Action, env: Env, lib: Library, current: Settings, input: Input)
    requires Permits(allow, Token(a))
    requires a == Create ==> CreateOptions(env, input).Ok?
    requires a == Remove ==> RemoveOptions(env, input).Ok?
    ensures var e := EpisodeFor(allow, Token(a), env, lib, current, input, Reached(EarlyExit));
      ExitStatus(Final(e)) == SUCCESS && Count(Events(e), ErrorTag) == 0
  {
    ParseToken(a);
    EventsShape(EpisodeFor(allow, Token(a), env, lib, current, input, Reached(EarlyExit)));
  }

  /**
   * `create` with a relative directory that is not a writable directory
   * fails with the directory exception and never reaches `makeFile`.
   */
  lemma UnusableDirectoryBlocksCreate(allow: AllowList, env: Env, lib: Library, current: Settings,
                                      input: Input, step: FileStep)
    requires Permits(allow, "create")
    requires Truthy(GetOption(input, Name(Path)))
    requires !env.isAbsolute(input[Name(Path)]) && !UsableDirectory(env, Join(env, input[Name(Path)]))
    ensures var e := EpisodeFor(allow, "create", env, lib, current, input, step);
      Final(e) == Raised(DirectoryUnavailable(input[Name(Path)])) &&
      ExitStatus(Final(e)) == FAILURE && Count(Events(e), FileTag) == 0 &&
      ErrorLine(DirectoryUnavailable(input[Name(Path)])) in Events(e)
  {
    ParseToken(Create);
    var e := EpisodeFor(allow, "create", env, lib, current, input, step);
    EventsShape(e);
    assert Events(e)[1] == ErrorLine(DirectoryUnavailable(input[Name(Path)]));
  }

  /**
   * `remove` with a relative file whose parent is not a writable directory
   * fails with the file exception and never reaches `deleteFile`.
   */
  lemma UnusableParentBlocksRemove(allow: AllowList, env: Env, lib: Library, current: Settings,
                                   input: Input, step: FileStep)
    requires Permits(allow, "remove")
    requires Truthy(GetOption(input, Name(File)))
    requires !env.isAbsolute(input[Name(File)])
    requires !UsableDirectory(env, env.dirname(Join(env, input[Name(File)])))
    ensures var e := EpisodeFor(allow, "remove", env, lib, current, input, step);
      Final(e) == Raised(FileUnavailable(input[Name(File)])) &&
      ExitStatus(Final(e)) == FAILURE && Count(Events(e), FileTag) == 0
  {
    ParseToken(Remove);
    EventsShape(EpisodeFor(allow, "remove", env, lib, current, input, step));
  }

  /**
   * A throwable before the file primitive (from `runIOAction`, `resolve` or
   * the file-path lookup) ends the run in FAILURE with its error line and
   * no file call, whichever action ran.
   */
  lemma InterruptedStepCallsNothing(allow: AllowList, action: string, env: Env, lib: Library, current: Settings,
                                    input: Input, f: Failure)
    ensures var e := EpisodeFor(allow, action, env, lib, current, input, Interrupted(f));
      Count(Events(e), FileTag) == 0 && ExitStatus(Final(e)) == FAILURE &&
      (e.Ran? ==>
         (e.handler == CreateMethod ==> CreateOptions(env, input).Ok?) ==>
         (e.handler == RemoveMethod ==> RemoveOptions(env, input).Ok?) ==>
         Final(e) == Raised(f))
  {
    EventsShape(EpisodeFor(allow, action, env, lib, current, input, Interrupted(f)));
  }

  /**
   * When `resolve` lets the options array win, typed content reaches
   * `makeFile` with every backslash-n replaced by the end of line.
   */
  lemma ContentReachesMakeFile(allow: AllowList, env: Env, lib: Library, current: Settings,
                               input: Input, step: FileStep)
    requires ArrayWins(lib)
    requires Permits(allow, "create")
    requires CreateOptions(env, input).Ok? && step.Reached?
    requires Truthy(GetOption(input, Name(Content)))
    ensures var e := EpisodeFor(allow, "create", env, lib, current, input, step);
      e.Ran? && e.run.call.Some? &&
      e.run.call.value.MakeFile? && !e.run.call.value.verbose &&
      e.run.call.value.content == Some(Rewrite(input[Name(Content)], env.eol)) &&
      FileCalled(e.run.call.value) in Events(e)
  {
    ParseToken(Create);
    var e := EpisodeFor(allow, "create", env, lib, current, input, step);
    assert Events(e)[1] == FileCalled(e.run.call.value);
  }

  /** `remove` asks `deleteFile` for a plain delete: neither verbose nor asserting. */
  lemma RemoveDoesNotAssert(allow: AllowList, env: Env, lib: Library, current: Settings,
                            input: Input, step: FileStep)
    requires Permits(allow, "remove")
    requires RemoveOptions(env, input).Ok? && step.Reached?
    ensures var e := EpisodeFor(allow, "remove", env, lib, current, input, step);
      e.Ran? && e.run.call.Some? &&
      e.run.call.value == DeleteFile(lib.filePath(lib.resolve(current, RemoveOptions(env, input).value)), false, false)
  {
    ParseToken(Remove);
  }

  // ---------------------------------------------------------------------
  // The command object
  // ---------------------------------------------------------------------

  class RobotsCommand {
    /** The action of the current run. */
    var action: string
    /** The injected allow-list. */
    var actions: AllowList
    var robotsOptions: RobotsOptions
    /** Handler calls, file calls and console output so far. */
    var trace: seq<Event>

    /** Builds the command; the options come from `initializeRobotsOptions($init)`. */
    constructor (actions: AllowList, init: map<string, PhpValue> := map[])
      requires SelectableConfig(init) && WellTyped(SelectConfig(init))
      ensures this.actions == actions && action == "" && trace == []
      ensures fresh(robotsOptions) && robotsOptions.Value() == FromInit(SelectConfig(init))
    {
      this.actions := actions;
      action := "";
      trace := [];
      robotsOptions := new RobotsOptions(SelectConfig(init));
    }

    /**
     * `initializeRobotsOptions($init)`: replaces the options with ones built
     * from the robots section, or from the whole array, and returns the
     * command itself for chaining.
     */
    method InitializeRobotsOptions(init: map<string, PhpValue> := map[]) returns (self: RobotsCommand)
      requires SelectableConfig(init) && WellTyped(SelectConfig(init))
      modifies this`robotsOptions
      ensures self == this
      ensures fresh(robotsOptions) && robotsOptions.Value() == FromInit(SelectConfig(init))
    {
      robotsOptions := new RobotsOptions(SelectConfig(init));
      self := this;
    }

    /** The `create` handler. */
    method Create(env: Env, lib: Library, input: Input, step: FileStep) returns (run: HandlerRun)
      ensures run == CreateRun(env, lib, robotsOptions.Value(), input, step)
    {
      var options := BuildCreateOptions(env, input);
      match options
      case Err(f) =>
        run := HandlerRun(None, Raised(f));
      case Ok(opts) =>
        match step
        case Interrupted(f) =>
          run := HandlerRun(None, Raised(f));
        case Reached(io) =>
          var call := CreateRobots(lib, robotsOptions.Value(), opts);
          run := HandlerRun(Some(call), AfterAction(io));
    }

    /** The `remove` handler. */
    method Remove(env: Env, lib: Library, input: Input, step: FileStep) returns (run: HandlerRun)
      ensures run == RemoveRun(env, lib, robotsOptions.Value(), input, step)
    {
      var options := BuildRemoveOptions(env, input);
      match options
      case Err(f) =>
        run := HandlerRun(None, Raised(f));
      case Ok(opts) =>
        match step
        case Interrupted(f) =>
          run := HandlerRun(None, Raised(f));
        case Reached(io) =>
          var call := DeleteRobots(lib, robotsOptions.Value(), opts);
          run := HandlerRun(Some(call), AfterAction(io));
    }

    /**
     * The guarded block of `execute`: the three checks, then the one
     * handler they name; says how the block ended.
     */
    method Guarded(env: Env, lib: Library, input: Input, step: FileStep) returns (outcome: Outcome)
      modifies this`trace
      ensures var e := EpisodeFor(actions, action, env, lib, robotsOptions.Value(), input, step);
        outcome == Final(e) && trace == old(trace) + Prefix(e)
    {
      if Restricts(actions) && Str(action) !in actions.items {
        outcome := Raised(NotAllowed(action));
      } else if Includes(action) {
        var a := Parse(action).value;
        if a in Methods {
          var h := Methods[a];
          trace := trace + [Invoked(h)];
          var run: HandlerRun;
          if h == CreateMethod {
            run := Create(env, lib, input, step);
          } else {
            run := Remove(env, lib, input, step);
          }
          if run.call.Some? {
            trace := trace + [FileCalled(run.call.value)];
          }
          outcome := run.outcome;
        } else {
          outcome := Raised(NoMethod(action));
        }
      } else {
        outcome := Raised(NotValid(action));
      }
    }

    /**
     * `execute`: records the action, runs the guarded block, maps the early
     * exit to SUCCESS and any other exception to FAILURE with one error
     * line, then writes a blank line and hands the status to `endCommand`.
     */
    method Execute(arg: Option<string>, env: Env, lib: Library, input: Input, step: FileStep) returns (status: int)
      modifies this`action, this`trace
      ensures action == ActionArgument(arg)
      ensures var e := EpisodeFor(actions, action, env, lib, robotsOptions.Value(), input, step);
        status == ExitStatus(Final(e)) && trace == old(trace) + Events(e)
    {
      action := ActionArgument(arg);
      ghost var before := trace;
      var outcome := Guarded(env, lib, input, step);
      ghost var prefix := trace;
      match outcome {
        case Returned(s) =>
          status := s;
        case EarlyExit =>
          status := SUCCESS;
        case Raised(f) =>
          trace := trace + [ErrorLine(f)];
          status := FAILURE;
      }
      trace := trace + [NewLine, EndCommand(status)];
      assert trace == prefix + Closing(outcome);
    }
  }
}
