# oihana-php-robots: the `command:robots` core in Dafny

`command:robots` is a console command that creates or removes a site's
`robots.txt` file. It takes one action argument and a few options. This
project models the deterministic part of that command:

- **Dispatch** (`RobotsCommandModel`). The action string goes through three
  checks in order: an optional injected allow-list (strict `in_array`), the
  closed `RobotsAction` enumeration, and a "handler method exists" check.
  Then exactly one handler runs, or the action is rejected. Every way the
  guarded block can end is folded into an exit status:
  - the handler's own status when it returns;
  - `SUCCESS` for the framework's early-exit exception;
  - `FAILURE`, with one error line, for any other throwable.

  A blank line and the `endCommand` hook always follow. `RobotsCommand` is a
  class. `Execute` assigns its `action` field and appends to a trace of
  events: handler invoked, file primitive called, error line, blank line,
  end of command. The trace stands in for the console output.
- **The two handlers** (`CreateAction`, `RemoveAction`). Each builds an
  options array key by key:
  - a falsy option (null, `""`, `"0"`) is skipped;
  - an absolute path is taken verbatim;
  - a relative path becomes `cwd . DIRECTORY_SEPARATOR . path`, and only if
    a directory oracle accepts it. `create` asks about the joined path
    itself, `remove` about its `dirname`.

  `create` also replaces every typed two-character `\n` of the content with
  `PHP_EOL`. The handler then calls `createRobots` or `deleteRobots` through
  `runIOAction`, or throws before any file call.
- **The options record** (`RobotsOptionsModel`). `RobotsOptions` is a class
  with nine public fields, declared defaults, construction from an
  initialisation array, and `__toString`.
- **The trait** (`RobotsTrait`). `initializeRobotsOptions` picks the
  `robots` section or the whole array. `createRobots` and `deleteRobots`
  forward the resolved path, content and flags to `makeFile` and
  `deleteFile`.
- **The action enumeration** (`RobotsActionEnum`) and **the option-name
  table** (`RobotsOption`).

What the model treats as given:

- The operating system is a parameter, the `Env` datatype: `getcwd()`,
  `DIRECTORY_SEPARATOR`, `PHP_EOL`, `isAbsolutePath`, `is_dir`,
  `is_writable` and `dirname`.
- Two library calls the source relies on are a second parameter, the
  `Library` datatype: `RobotsOptions::resolve`, and the path `getFilePath`
  would build. The options class as written does not declare
  `getFilePath`; `RobotsTrait` models that lookup both as written and
  corrected.
- How the `runIOAction` callback gets on is a third parameter, a
  `FileStep`. Either something threw before the file primitive was called,
  or the primitive was called and then returned, exited early or threw.

## Model

| member | source | states |
|---|---|---|
| Common.Join | src/oihana/robots/actions/RobotsCreateAction.php:69 | the joined path is the working directory, then the separator, then the given path: each of the three pieces sits at its place and the length is their sum |
| Common.GetOption | src/oihana/robots/actions/RobotsCreateAction.php:60 | an option reads as present exactly when it was given, with the given value |
| Common.Truthy | src/oihana/robots/actions/RobotsCreateAction.php:61 | an option counts as given exactly when it is present and neither `""` nor `"0"`; its meaning is stated by the CreateOptions and RemoveOptions rows |
| RobotsOption.AsWritten | src/oihana/robots/options/RobotsOption.php:12-17 | the declared table leaves exactly one constant the code uses undefined: PATH |
| RobotsOption.AsWrittenOverwriteIsOwner | src/oihana/robots/options/RobotsOption.php:15-16 | two distinct constants, OVERWRITE and OWNER, have the same declared name |
| RobotsOption.Corrected | tests/oihana/robots/options/RobotsOptionTest.php:15-19 | the corrected table agrees with the declared one on every defined constant except OVERWRITE |
| RobotsOption.CorrectedInjective | tests/oihana/robots/options/RobotsOptionTest.php:24-32 | no two constants of the corrected table share a name |
| RobotsOption.NamesDistinct | src/oihana/robots/actions/RobotsCreateAction.php:60-84 | the path, file and content keys are read from three different console options |
| RobotsActionEnum.Token | src/oihana/robots/enums/RobotsAction.php:21-26 | each action is spelled by a value of the enumeration |
| RobotsActionEnum.Includes | src/oihana/robots/enums/RobotsAction.php:21-26 | membership among the enumeration values; TokensAreExactlyTheActions states that these are exactly the two tokens |
| RobotsActionEnum.Parse | src/oihana/robots/enums/RobotsAction.php:21-26 | a string parses to an action exactly when it is an enumeration value, and then to the action with that token |
| RobotsActionEnum.ParseToken | tests/oihana/robots/enums/RobotsActionTest.php:14-15 | each action's token is an enumeration value and parses back to that action |
| RobotsActionEnum.TokensAreExactlyTheActions | src/oihana/robots/enums/RobotsAction.php:21-26 | the enumeration values are exactly the tokens of the two actions, and the two tokens differ |
| RobotsOptionsModel.FieldsDetermineSettings | src/oihana/robots/options/RobotsOptions.php:18-64 | two option records with equal fields are equal |
| RobotsOptionsModel.FromInit | tests/oihana/robots/options/RobotsOptionsTest.php:26-51 | each field supplied in the array takes exactly the supplied value, and every other field keeps its declared default |
| RobotsOptionsModel.ToInit | src/oihana/robots/options/RobotsOptions.php:18-64 | the array written from a record has one entry per declared property, no more; it exists to state the FromInitToInit round trip and is not itself an operation of the class |
| RobotsOptionsModel.FromInitToInit | tests/oihana/robots/options/RobotsOptionsTest.php:26-51 | writing a record out as an array and building from that array gives the same record back |
| RobotsOptionsModel.FromEmptyIsDefaults | tests/oihana/robots/options/RobotsOptionsTest.php:11-24 | with an empty array, append is false; force, lock and overwrite are true; content, file, group, owner and permissions are null |
| RobotsOptionsModel.RobotsOptions.constructor | src/oihana/robots/options/RobotsOptions.php:18-64 | a new object holds the record built from the initialisation array |
| RobotsOptionsModel.RobotsOptions.ToString | src/oihana/robots/options/RobotsOptions.php:70-73 | the rendering is the file when it is set, and the empty string otherwise |
| RobotsOptionsModel.FileAssignmentIsRendered | tests/oihana/robots/options/RobotsOptionsTest.php:53-63 | a fresh object renders as the empty string, and after its file is assigned it renders as that file |
| RobotsTrait.SelectConfig | src/oihana/robots/traits/RobotsTrait.php:115 | the options come from the robots section when it is present and not null, and from the whole array otherwise |
| RobotsTrait.CreateRobots | src/oihana/robots/traits/RobotsTrait.php:60-69 | one makeFile call, with the resolved options' file path and content and the verbose flag unchanged; verbose defaults to false |
| RobotsTrait.DeleteRobots | src/oihana/robots/traits/RobotsTrait.php:84-93 | one deleteFile call, with the resolved file path and the verbose and assertable flags unchanged; both default to false |
| RobotsTrait.AfterAction | src/oihana/robots/actions/RobotsCreateAction.php:87-95 | once the file primitive was called: a handler whose primitive returned returns SUCCESS; an early exit or a throwable passes through unchanged |
| RobotsTrait.FilePathIn | src/oihana/robots/traits/RobotsTrait.php:65 | the lookup yields the library's path exactly when the options class declares getFilePath, and the undefined-method Error otherwise |
| RobotsTrait.CreateRobotsIn | src/oihana/robots/traits/RobotsTrait.php:60-69 | createRobots reaches makeFile, with exactly the CreateRobots call, exactly when the lookup is declared |
| RobotsTrait.DeleteRobotsIn | src/oihana/robots/traits/RobotsTrait.php:84-93 | deleteRobots reaches deleteFile, with exactly the DeleteRobots call, exactly when the lookup is declared |
| RobotsTrait.AsWrittenLookupThrows | src/oihana/robots/traits/RobotsTrait.php:60-93 | with the methods RobotsOptions declares, both trait methods throw the undefined-method Error before any file primitive, whatever the options |
| RobotsTrait.DeclaredLookupForwards | src/oihana/robots/traits/RobotsTrait.php:60-93 | with the lookup declared, both trait methods make exactly the calls the rest of the model records |
| CreateAction.RewriteKeepsEscapeFree | src/oihana/robots/actions/RobotsCreateAction.php:84 | content with no backslash-n pair is stored unchanged |
| CreateAction.RewriteStep | src/oihana/robots/actions/RobotsCreateAction.php:84 | scanning from the left, a leading pair becomes the end of line, and any other leading character is kept |
| CreateAction.RewriteAppend | src/oihana/robots/actions/RobotsCreateAction.php:84 | rewriting a concatenation rewrites each part, unless the cut splits a pair |
| CreateAction.PhpEolIsSafe | src/oihana/robots/actions/RobotsCreateAction.php:84 | neither value of PHP_EOL can start or complete a backslash-n pair |
| CreateAction.Rewrite | src/oihana/robots/actions/RobotsCreateAction.php:84 | `str_replace` of the two characters backslash and n by the end of line, scanning left to right without overlap; its meaning is stated by the Rewrite lemmas in the rows around it |
| CreateAction.RewriteHead | src/oihana/robots/actions/RobotsCreateAction.php:84 | the first character of the result is the end of line's first character when the content starts with a pair, and the content's own first character otherwise |
| CreateAction.RewriteLeavesNoEscape | src/oihana/robots/actions/RobotsCreateAction.php:84 | with either PHP_EOL, no backslash-n pair survives in the stored content |
| CreateAction.RewriteIdempotent | src/oihana/robots/actions/RobotsCreateAction.php:84 | with either PHP_EOL, rewriting stored content again changes nothing |
| CreateAction.RewriteTwoLines | src/oihana/robots/actions/RobotsCreateAction.php:84 | two lines typed with one backslash-n between them are stored as the two lines joined by the end of line |
| CreateAction.ResolveDirectory | src/oihana/robots/actions/RobotsCreateAction.php:63-78 | an absolute path is kept with no check; a relative path becomes cwd, separator and path exactly when that joined path is a writable directory, and otherwise raises the directory exception |
| CreateAction.CreateOptions | src/oihana/robots/actions/RobotsCreateAction.php:58-85 | create fails exactly when a truthy relative path is refused; otherwise the array holds only path and content, each exactly when its option is truthy, the path as resolved and the content rewritten |
| CreateAction.BuildCreateOptions | src/oihana/robots/actions/RobotsCreateAction.php:58-85 | filling the array key by key, with the early throw, gives exactly the options array or the exception above |
| CreateAction.CreateRun | src/oihana/robots/actions/RobotsCreateAction.php:54-96 | a refused directory, or a throwable before makeFile, ends the handler with that exception and no file call; otherwise makeFile is called once through createRobots with verbose false, and create returns SUCCESS unless makeFile threw |
| RemoveAction.ResolveFile | src/oihana/robots/actions/RobotsRemoveAction.php:62-78 | an absolute file is kept with no check; a relative file becomes cwd, separator and file exactly when the parent of that joined path is a writable directory, and otherwise raises the file exception |
| RemoveAction.RemoveOptions | src/oihana/robots/actions/RobotsRemoveAction.php:57-79 | remove fails exactly when a truthy relative file is refused; otherwise the array holds only the file key, exactly when the option is truthy, with the resolved path |
| RemoveAction.BuildRemoveOptions | src/oihana/robots/actions/RobotsRemoveAction.php:57-79 | filling the array in place, with the early throw, gives exactly the options array or the exception above |
| RemoveAction.RemoveRun | src/oihana/robots/actions/RobotsRemoveAction.php:53-90 | a refused parent, or a throwable before deleteFile, ends the handler with that exception and no file call; otherwise deleteFile is called once, with verbose and assertable false, and remove returns SUCCESS unless deleteFile threw |
| RobotsCommandModel.ActionArgument | src/oihana/robots/commands/RobotsCommand.php:125 | the action is the given argument, or the empty string, which is no enumeration value, when none was given |
| RobotsCommandModel.Restricts | src/oihana/robots/commands/RobotsCommand.php:127 | only a non-empty array restricts the actions; DispatchUnrestricted states the other case |
| RobotsCommandModel.Permits | src/oihana/robots/commands/RobotsCommand.php:127-129 | a restricting allow-list must hold the action as a string, compared strictly; DispatchRejectsUnlisted states the rejection |
| RobotsCommandModel.Dispatch | src/oihana/robots/commands/RobotsCommand.php:127-158 | a handler runs exactly when the action is permitted, an enumeration value and in the handler table, and then it is that action's handler; every rejection names the action as not allowed, not valid or without a method |
| RobotsCommandModel.ExitStatus | src/oihana/robots/commands/RobotsCommand.php:148-168 | a status the handler returned passes through unchanged; an early exit gives SUCCESS and any other throwable FAILURE; so the status is SUCCESS exactly for an early exit or a handler that returned SUCCESS, and FAILURE exactly for a throwable or a handler that returned FAILURE |
| RobotsCommandModel.DispatchRejectsUnlisted | src/oihana/robots/commands/RobotsCommand.php:127-141 | a non-empty allow-list that does not hold the action rejects it before any other check |
| RobotsCommandModel.DispatchUnrestricted | src/oihana/robots/commands/RobotsCommand.php:127 | an empty or non-array allow-list restricts nothing; a handler runs exactly when the action is valid and has a handler |
| RobotsCommandModel.DispatchRejectsInvalid | src/oihana/robots/commands/RobotsCommand.php:144-158 | a token outside the enumeration is rejected as not valid, even after passing the allow-list |
| RobotsCommandModel.DispatchInvokesHandler | src/oihana/robots/commands/RobotsCommand.php:144-148 | a permitted valid action invokes the handler the table holds for it |
| RobotsCommandModel.DispatchReportsMissingHandler | src/oihana/robots/commands/RobotsCommand.php:150-153 | a permitted valid action without a handler is rejected with the missing-method failure, which differs from the invalid-action failure |
| RobotsCommandModel.MethodsCoverActions | src/oihana/robots/commands/RobotsCommand.php:146 | every enumeration value has its handler method, so the missing-method rejection never happens |
| RobotsCommandModel.ClosingCount | src/oihana/robots/commands/RobotsCommand.php:160-172 | the closing lines hold one error line exactly when something other than the early exit was thrown, then one blank line and one end of command |
| RobotsCommandModel.EventsShape | src/oihana/robots/commands/RobotsCommand.php:123-172 | on every path: one handler invocation, first, exactly when dispatch accepted; at most one file call, only from that handler; one error line exactly when something was thrown; and a blank line then endCommand with the final status, last |
| RobotsCommandModel.StatusIsExitCode | src/oihana/robots/commands/RobotsCommand.php:160-172 | with its own handlers the command only ever ends with SUCCESS or FAILURE |
| RobotsCommandModel.UnlistedActionFails | src/oihana/robots/commands/RobotsCommand.php:127-141 | an unlisted action ends in FAILURE with its error line, no handler run and no file call |
| RobotsCommandModel.InvalidActionFails | src/oihana/robots/commands/RobotsCommand.php:155-158 | an invalid action ends in FAILURE with no handler run and no file call |
| RobotsCommandModel.MissingActionFails | src/oihana/robots/commands/RobotsCommand.php:125 | a missing action argument reads as the empty string, which is rejected and ends in FAILURE |
| RobotsCommandModel.ValidActionRunsItsHandlerOnce | src/oihana/robots/commands/RobotsCommand.php:146-148 | a permitted action runs its own handler, exactly once and first, and the handler's result decides the status |
| RobotsCommandModel.EarlyExitSucceeds | src/oihana/robots/commands/RobotsCommand.php:160-163 | an early exit from the file step ends in SUCCESS with no error line |
| RobotsCommandModel.UnusableDirectoryBlocksCreate | src/oihana/robots/actions/RobotsCreateAction.php:74-77 | create with a refused relative directory ends in FAILURE with the directory exception's error line and never reaches makeFile |
| RobotsCommandModel.UnusableParentBlocksRemove | src/oihana/robots/actions/RobotsRemoveAction.php:74-77 | remove with a refused parent directory ends in FAILURE with the file exception and never reaches deleteFile |
| RobotsCommandModel.InterruptedStepCallsNothing | src/oihana/robots/actions/RobotsCreateAction.php:87-93 | a throwable before the file primitive ends the run in FAILURE with no file call, whichever action ran; a handler that ran with its path check passed ends with exactly that throwable |
| RobotsCommandModel.ContentReachesMakeFile | src/oihana/robots/actions/RobotsCreateAction.php:81-89 | when the callback reaches makeFile and resolve lets the options array win, typed content reaches makeFile rewritten, with verbose false |
| RobotsCommandModel.RemoveDoesNotAssert | src/oihana/robots/actions/RobotsRemoveAction.php:83 | when the callback reaches deleteFile, remove calls it with the resolved path, verbose false and assertable false |
| RobotsCommandModel.RobotsCommand.constructor | src/oihana/robots/commands/RobotsCommand.php:79-88 | a new command has the injected allow-list, an empty trace and options built, as `initializeRobotsOptions` does (RobotsTrait.php lines 113-117), from the selected configuration |
| RobotsCommandModel.RobotsCommand.InitializeRobotsOptions | src/oihana/robots/traits/RobotsTrait.php:113-117 | the options are replaced by new ones built from the selected configuration, and the command itself is returned |
| RobotsCommandModel.RobotsCommand.Create | src/oihana/robots/actions/RobotsCreateAction.php:54-96 | the create handler on the command's current options does what CreateRun describes |
| RobotsCommandModel.RobotsCommand.Remove | src/oihana/robots/actions/RobotsRemoveAction.php:53-90 | the remove handler on the command's current options does what RemoveRun describes |
| RobotsCommandModel.RobotsCommand.Guarded | src/oihana/robots/commands/RobotsCommand.php:125-158 | the guarded block ends as dispatch and the chosen handler decide, and records only the handler invocation and its file call |
| RobotsCommandModel.RobotsCommand.Execute | src/oihana/robots/commands/RobotsCommand.php:115-173 | the action field holds the argument or the empty string; the status is the exit status of the run, and the trace grows by exactly that run's events |

## Left out

- Console plumbing is not modelled: `startCommand`, `initializeConsoleLogger`, `clearConsole`, `getIO`, the timestamp, and the text of every message, including the `json_encode` of the allow-list. Error lines carry the failure's kind and subject, not its wording.
- `runIOAction`, `makeFile` and `deleteFile` are library code outside this model. Only the arguments the primitives receive are modelled. How the callback gets on is a parameter (`FileStep`): a throwable before the primitive is called, or the primitive called and then returning, exiting early or throwing. A `FileCalled` event means the primitive was called with those arguments, not that the file changed.
- An early exit raised before the file primitive is called is not distinguished: `FileStep` only lets a throwable interrupt the callback before the primitive.
- `RobotsOptions::resolve` and the path `getFilePath` would build are parameters (`Library`). Nothing is claimed about that path. `ContentReachesMakeFile` assumes the array-wins merge rule (`ArrayWins`), which the `resolve` source does not show.
- CreateAction and RemoveAction read option names from `RobotsOption.Corrected`. As written, `create` reads the undeclared constant `RobotsOption::PATH` at src/oihana/robots/actions/RobotsCreateAction.php:60; what PHP does there depends on the `Option` base class, which is not part of this model (see "## Findings").
- The model after the lookup (CreateRun, RemoveRun and the command) uses the corrected trait in which `getFilePath` is declared; see "## Findings".
- `createRobots` and `deleteRobots` accept null, an array or an object. Only the array form, the one the handlers use, is modelled.
- RobotsOptionsModel.RobotsOptions.constructor: requires each supplied value to fit its typed property. The `Options` base constructor is not part of this model; that it assigns each supplied property and ignores keys that name no property is assumed of it, not shown.
- RobotsTrait.SelectConfig: requires the `robots` entry, when present, to be an array or null. `$init['robots'] ?? $init` would pass any other value on to the `Options` constructor, which is not part of this model.
- RobotsCommandModel.RobotsCommand.Execute: returns the status it hands to `endCommand`. `endCommand` is not part of this model and is taken to return the status it receives.
- `content` has no initialiser in the class. The model reads it as null, which is what the options test expects.
- `RobotsConfig`, `RobotsDefinition`, `Option::configure` and `getCommandOption` are constant tables or console configuration and are not modelled. The dependency-injection definitions are not modelled either.
- The namespace declared in the two options files differs from the directory layout. That is packaging, not behaviour.
- The command is described as taking a file path for `create`. The code reads a directory under the `path` option for `create` and a file under the `file` option for `remove`. The model follows the code.

## Findings

| source | as written | input that shows it | evidently intended | confidence | as-written member | corrected member |
|---|---|---|---|---|---|---|
| src/oihana/robots/options/RobotsOption.php:15-16 | `OVERWRITE` has the value `'owner'`, the same as `OWNER` | the constant OVERWRITE: its name equals OWNER's | `'overwrite'`, as the option test expects | high (not executed) | RobotsOption.AsWrittenOverwriteIsOwner | RobotsOption.CorrectedInjective |
| src/oihana/robots/options/RobotsOption.php:12-17 | no `PATH` constant, although `create` reads `RobotsOption::PATH` | `create` run with any input: the constant it reads is undefined | `PATH = 'path'`, as the option test expects | high (not executed) | RobotsOption.AsWritten | RobotsOption.NamesDistinct |
| src/oihana/robots/traits/RobotsTrait.php:65 | `createRobots` and `deleteRobots` call `getFilePath()`, which `RobotsOptions` does not declare | any `create` or `remove` whose path check passes: the lookup throws before `makeFile` or `deleteFile` | the options class declares the lookup, and the primitive receives its path | medium (not executed; the `Options` base class is not part of this model and might declare it) | RobotsTrait.AsWrittenLookupThrows | RobotsTrait.DeclaredLookupForwards |
