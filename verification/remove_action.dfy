/**
 * The `remove` action: resolves the file to delete (taken verbatim when
 * absolute, joined to the working directory when relative, and then only
 * if its parent directory is writable) and hands the resulting options
 * array to `deleteRobots`.
 */
module RemoveAction {
  import opened Common
  import opened RobotsOption
  import opened RobotsOptionsModel
  import opened RobotsTrait

  /**
   * The file option as stored: verbatim when absolute, without any check;
   * joined to the working directory when relative, and only if the
   * directory part of the joined path is a writable directory.
   */
  function ResolveFile(env: Env, file: string): (r: Result<string, Failure>)
    ensures env.isAbsolute(file) ==> r == Ok(file)
    ensures !env.isAbsolute(file) ==>
      (r.Ok? <==> UsableDirectory(env, env.dirname(Join(env, file)))) &&
      (r.Ok? ==> r.value == env.cwd + env.sep + file) &&
      (r.Err? ==> r.error == FileUnavailable(file))
  {
    if env.isAbsolute(file) then Ok(file)
    else
      var relativePath := Join(env, file);
      if UsableDirectory(env, env.dirname(relativePath)) then Ok(relativePath)
      else Err(FileUnavailable(file))
  }

  /** The options array `remove` builds, or the exception it raises. */
  function RemoveOptions(env: Env, input: Input): (r: Result<map<Key, string>, Failure>)
    ensures r.Err? <==>
      Truthy(GetOption(input, Name(File))) && ResolveFile(env, input[Name(File)]).Err?
    ensures r.Err? ==> r.error == FileUnavailable(input[Name(File)])
    ensures r.Ok? ==> r.value.Keys <= {File}
    ensures r.Ok? ==> (File in r.value <==> Truthy(GetOption(input, Name(File))))
    ensures r.Ok? && File in r.value ==> r.value[File] == ResolveFile(env, input[Name(File)]).value
  {
    var file := GetOption(input, Name(File));
    if !Truthy(file) then Ok(map[])
    else
      match ResolveFile(env, file.value)
      case Err(f) => Err(f)
      case Ok(path) => Ok(map[File := path])
  }

  /** `remove` up to the callback: fills the options array, or throws. */
  method BuildRemoveOptions(env: Env, input: Input) returns (r: Result<map<Key, string>, Failure>)
    ensures r == RemoveOptions(env, input)
  {
    var options: map<Key, string> := map[];
    var file := GetOption(input, Name(File));
    if Truthy(file) {
      if env.isAbsolute(file.value) {
        options := options[File := file.value];
      } else {
        var relativePath := Join(env, file.value);
        var parentDir := env.dirname(relativePath);
        if UsableDirectory(env, parentDir) {
          options := options[File := relativePath];
        } else {
          return Err(FileUnavailable(file.value));
        }
      }
    }
    return Ok(options);
  }

  /**
   * What `remove` does: throw before any file call when the parent
   * directory is unusable, or when the callback is interrupted before
   * `deleteFile`; otherwise one `deleteFile` call through `deleteRobots`,
   * with `verbose` and `assertable` left at false, after which it returns
   * SUCCESS unless the file primitive threw.
   */
  function RemoveRun(env: Env, lib: Library, current: Settings, input: Input, step: FileStep): (run: HandlerRun)
    ensures RemoveOptions(env, input).Err? ==>
      run == HandlerRun(None, Raised(RemoveOptions(env, input).error))
    ensures RemoveOptions(env, input).Ok? && step.Interrupted? ==>
      run == HandlerRun(None, Raised(step.failure))
    ensures RemoveOptions(env, input).Ok? && step.Reached? ==>
      run.call.Some? && run.call.value.DeleteFile? &&
      !run.call.value.assertable && !run.call.value.verbose &&
      run.call.value.filePath == lib.filePath(lib.resolve(current, RemoveOptions(env, input).value)) &&
      run.outcome == AfterAction(step.io)
    ensures run.outcome.Returned? ==> run.outcome.status == SUCCESS
  {
    match RemoveOptions(env, input)
    case Err(f) => HandlerRun(None, Raised(f))
    case Ok(options) =>
      match step
      case Interrupted(f) => HandlerRun(None, Raised(f))
      case Reached(io) => HandlerRun(Some(DeleteRobots(lib, current, options)), AfterAction(io))
  }
}
