/**
 * Values shared by every part of the `command:robots` model: PHP values as
 * they appear in configuration arrays, the exit codes, the failures the
 * command can raise, and the ambient operating-system state that path
 * resolution consults.
 */
module Common {

  datatype Option<+T> = None | Some(value: T)

  datatype Result<+T, +E> = Ok(value: T) | Err(error: E)

  /** Exit code of a command that went fine. */
  const SUCCESS: int := 0

  /** Exit code of a command that failed. */
  const FAILURE: int := 1

  /** A PHP value as it is found in a configuration array or an allow-list. */
  datatype PhpValue =
    | Null
    | Bool(b: bool)
    | Int(i: int)
    | Str(s: string)
    | Array(entries: map<string, PhpValue>)

  /**
   * PHP truthiness of an optional console string: `null`, `""` and `"0"`
   * are falsy, every other string is truthy.
   */
  predicate Truthy(o: Option<string>) {
    o.Some? && o.value != "" && o.value != "0"
  }

  /** The exceptions the command raises or lets through, by kind. */
  datatype Failure =
    | NotAllowed(action: string)            // the injected allow-list rejects the action
    | NotValid(action: string)              // the action is not a RobotsAction token
    | NoMethod(action: string)              // a valid token with no handler method
    | DirectoryUnavailable(path: string)    // DirectoryException raised by `create`
    | FileUnavailable(path: string)         // FileException raised by `remove`
    | UndefinedMethod(name: string)         // Error raised by calling a method no class declares
    | External(message: string)             // any throwable from code outside the model

  /**
   * How a piece of code ended: it returned a status, it threw the
   * framework's ExitException (a controlled early exit that means
   * success), or it threw any other throwable.
   */
  datatype Outcome = Returned(status: int) | EarlyExit | Raised(failure: Failure)

  /**
   * The ambient state `create` and `remove` read: `getcwd()`,
   * `DIRECTORY_SEPARATOR`, `PHP_EOL`, `isAbsolutePath`, `is_dir`,
   * `is_writable` and `dirname`.
   */
  datatype Env = Env(
    cwd: string,
    sep: string,
    eol: string,
    isAbsolute: string -> bool,
    isDir: string -> bool,
    isWritable: string -> bool,
    dirname: string -> string)

  /** `getcwd() . DIRECTORY_SEPARATOR . $path` */
  function Join(env: Env, path: string): (joined: string)
    ensures |joined| == |env.cwd| + |env.sep| + |path|
    ensures joined[..|env.cwd|] == env.cwd && joined[|joined| - |path|..] == path
    ensures joined[|env.cwd|..|env.cwd| + |env.sep|] == env.sep
  {
    env.cwd + env.sep + path
  }

  /** `is_dir($dir) && is_writable($dir)` */
  predicate UsableDirectory(env: Env, dir: string) {
    env.isDir(dir) && env.isWritable(dir)
  }

  /** Console options as given on the command line, by option name. */
  type Input = map<string, string>

  /** `$input->getOption($name)`: null when the option was not given. */
  function GetOption(input: Input, name: string): (o: Option<string>)
    ensures o.Some? <==> name in input
    ensures o.Some? ==> o.value == input[name]
  {
    if name in input then Some(input[name]) else None
  }
}
