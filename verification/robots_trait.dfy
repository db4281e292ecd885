/**
 * The robots-file logic shared by both actions: which part of the
 * initialisation array configures the options, and what `createRobots`
 * and `deleteRobots` hand to the file primitives.
 */
module RobotsTrait {
  import opened Common
  import opened RobotsOption
  import opened RobotsOptionsModel

  /** Key of the robots section in a configuration array. */
  const ROBOTS: string := "robots"

  /**
   * Library code the trait relies on: `RobotsOptions::resolve`, which
   * merges an options array into the current options, and `getFilePath`,
   * which the options class does not define.
   */
  datatype Library = Library(
    resolve: (Settings, map<Key, string>) -> Settings,
    filePath: Settings -> string)

  /** A call into the file primitives, with the arguments it received. */
  datatype FileCall =
    | MakeFile(filePath: string, content: Option<string>, verbose: bool)
    | DeleteFile(filePath: string, verbose: bool, assertable: bool)

  /** What `initializeRobotsOptions` may be given under the robots key. */
  predicate SelectableConfig(init: map<string, PhpValue>) {
    ROBOTS in init ==> init[ROBOTS].Array? || init[ROBOTS].Null?
  }

  /**
   * `$init['robots'] ?? $init`: the robots section when it is present and
   * not null, otherwise the whole array.
   */
  function SelectConfig(init: map<string, PhpValue>): (config: map<string, PhpValue>)
    requires SelectableConfig(init)
    ensures ROBOTS in init && init[ROBOTS].Array? ==> config == init[ROBOTS].entries
    ensures ROBOTS !in init || init[ROBOTS].Null? ==> config == init
  {
    if ROBOTS in init && init[ROBOTS].Array? then init[ROBOTS].entries else init
  }

  /**
   * `createRobots($options, $verbose)`: resolves the options against the
   * current ones and forwards the resolved file path and content, and the
   * verbose flag, unchanged to `makeFile`.
   */
  function CreateRobots(lib: Library, current: Settings, options: map<Key, string>, verbose: bool := false)
    : (call: FileCall)
    ensures call.MakeFile? && call.verbose == verbose
    ensures call.filePath == lib.filePath(lib.resolve(current, options))
    ensures call.content == lib.resolve(current, options).content
  {
    var resolved := lib.resolve(current, options);
    MakeFile(lib.filePath(resolved), resolved.content, verbose)
  }

  /**
   * `deleteRobots($options, $verbose, $assertable)`: forwards the resolved
   * file path and the two flags unchanged to `deleteFile`.
   */
  function DeleteRobots(lib: Library, current: Settings, options: map<Key, string>,
                        verbose: bool := false, assertable: bool := false)
    : (call: FileCall)
    ensures call.DeleteFile? && call.verbose == verbose && call.assertable == assertable
    ensures call.filePath == lib.filePath(lib.resolve(current, options))
  {
    DeleteFile(lib.filePath(lib.resolve(current, options)), verbose, assertable)
  }

  // ---------------------------------------------------------------------
  // The file-path lookup as written
  // ---------------------------------------------------------------------

  /** The lookup `createRobots` and `deleteRobots` call on the resolved options. */
  const GET_FILE_PATH: string := "getFilePath"

  /**
   * The methods `RobotsOptions` declares, as written. The lookup is not
   * among them; the `Options` base class is not part of this model.
   */
  const DeclaredMethods: set<string> := {"__toString"}

  /**
   * `$options->getFilePath()` on an options class declaring `methods`: the
   * library's path when the class has the method, PHP's undefined-method
   * Error otherwise.
   */
  function FilePathIn(methods: set<string>, lib: Library, resolved: Settings): (r: Result<string, Failure>)
    ensures r.Ok? <==> GET_FILE_PATH in methods
    ensures r.Ok? ==> r.value == lib.filePath(resolved)
    ensures r.Err? ==> r.error == UndefinedMethod(GET_FILE_PATH)
  {
    if GET_FILE_PATH in methods then Ok(lib.filePath(resolved)) else Err(UndefinedMethod(GET_FILE_PATH))
  }

  /**
   * `createRobots($options, $verbose)` with an options class declaring
   * `methods`: the `makeFile` call it makes, or the Error it throws first.
   */
  function CreateRobotsIn(methods: set<string>, lib: Library, current: Settings, options: map<Key, string>,
                          verbose: bool := false)
    : (r: Result<FileCall, Failure>)
    ensures r.Ok? <==> GET_FILE_PATH in methods
    ensures r.Ok? ==> r.value == CreateRobots(lib, current, options, verbose)
  {
    var resolved := lib.resolve(current, options);
    match FilePathIn(methods, lib, resolved)
    case Err(f) => Err(f)
    case Ok(path) => Ok(MakeFile(path, resolved.content, verbose))
  }

  /**
   * `deleteRobots($options, $verbose, $assertable)` with an options class
   * declaring `methods`: the `deleteFile` call it makes, or the Error it
   * throws first.
   */
  function DeleteRobotsIn(methods: set<string>, lib: Library, current: Settings, options: map<Key, string>,
                          verbose: bool := false, assertable: bool := false)
    : (r: Result<FileCall, Failure>)
    ensures r.Ok? <==> GET_FILE_PATH in methods
    ensures r.Ok? ==> r.value == DeleteRobots(lib, current, options, verbose, assertable)
  {
    match FilePathIn(methods, lib, lib.resolve(current, options))
    case Err(f) => Err(f)
    case Ok(path) => Ok(DeleteFile(path, verbose, assertable))
  }

  /**
   * As written, neither trait method ever reaches its file primitive: the
   * lookup throws first, whatever the options.
   */
  lemma AsWrittenLookupThrows(lib: Library, current: Settings, options: map<Key, string>,
                              verbose: bool, assertable: bool)
    ensures CreateRobotsIn(DeclaredMethods, lib, current, options, verbose) == Err(UndefinedMethod(GET_FILE_PATH))
    ensures DeleteRobotsIn(DeclaredMethods, lib, current, options, verbose, assertable)
      == Err(UndefinedMethod(GET_FILE_PATH))
  {
    assert GET_FILE_PATH != "__toString" by { assert GET_FILE_PATH[0] != "__toString"[0]; }
  }

  /**
   * With the lookup declared, each trait method makes exactly the call the
   * rest of the model records, and the undefined-method Error cannot occur.
   */
  lemma DeclaredLookupForwards(methods: set<string>, lib: Library, current: Settings, options: map<Key, string>,
                               verbose: bool, assertable: bool)
    requires GET_FILE_PATH in methods
    ensures CreateRobotsIn(methods, lib, current, options, verbose) == Ok(CreateRobots(lib, current, options, verbose))
    ensures DeleteRobotsIn(methods, lib, current, options, verbose, assertable)
      == Ok(DeleteRobots(lib, current, options, verbose, assertable))
  {
  }

  // ---------------------------------------------------------------------
  // Handlers after the options array is built
  // ---------------------------------------------------------------------

  /**
   * How the callback given to `runIOAction` got on: something threw before
   * the file primitive was called (`runIOAction` itself, `resolve` or the
   * file-path lookup), or the primitive was called and ended as given.
   */
  datatype FileStep = Interrupted(failure: Failure) | Reached(io: Outcome)

  /** What an action handler did: the file call it made, if any, and how it ended. */
  datatype HandlerRun = HandlerRun(call: Option<FileCall>, outcome: Outcome)

  /**
   * An action after its file primitive was called: it returns SUCCESS when
   * the primitive returned, whatever it returned, and lets any exception
   * through.
   */
  function AfterAction(io: Outcome): (o: Outcome)
    ensures io.Returned? ==> o == Returned(SUCCESS)
    ensures !io.Returned? ==> o == io
  {
    if io.Returned? then Returned(SUCCESS) else io
  }

  /**
   * A merge rule in which a value given in the options array wins over the
   * current options; `resolve` itself is not part of this model.
   */
  ghost predicate ArrayWins(lib: Library) {
    forall current: Settings, options: map<Key, string> ::
      Content in options ==> lib.resolve(current, options).content == Some(options[Content])
  }
}
