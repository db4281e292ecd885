/**
 * The `create` action: resolves the target directory (taken verbatim when
 * absolute, joined to the working directory and checked when relative),
 * turns every typed `\n` of the content into the platform end of line, and
 * hands the resulting options array to `createRobots`.
 */
module CreateAction {
  import opened Common
  import opened RobotsOption
  import opened RobotsOptionsModel
  import opened RobotsTrait

  // ---------------------------------------------------------------------
  // `str_replace('\n', PHP_EOL, $content)`
  // ---------------------------------------------------------------------

  /** A backslash followed by the letter n starts at index `i` of `s`. */
  predicate EscapeAt(s: string, i: int) {
    0 <= i && i + 1 < |s| && s[i] == '\\' && s[i + 1] == 'n'
  }

  /** `s` holds no backslash-n pair. */
  predicate NoEscape(s: string) {
    forall i :: 0 <= i < |s| ==> !EscapeAt(s, i)
  }

  /**
   * Every backslash-n pair of `s`, found scanning left to right without
   * overlap, replaced by `eol`; every other character kept.
   */
  function Rewrite(s: string, eol: string): string
    decreases |s|
  {
    if |s| < 2 then s
    else if EscapeAt(s, 0) then eol + Rewrite(s[2..], eol)
    else [s[0]] + Rewrite(s[1..], eol)
  }

  /** Content without a backslash-n pair is kept as it is. */
  lemma {:induction false} RewriteKeepsEscapeFree(s: string, eol: string)
    requires NoEscape(s)
    ensures Rewrite(s, eol) == s
    decreases |s|
  {
    if |s| >= 2 {
      assert !EscapeAt(s, 0);
      forall i | 0 <= i < |s[1..]| ensures !EscapeAt(s[1..], i) {
        assert !EscapeAt(s, i + 1);
      }
      RewriteKeepsEscapeFree(s[1..], eol);
    }
  }

  /** One step of the rewrite on content of two characters or more. */
  lemma RewriteStep(s: string, eol: string)
    requires |s| >= 2
    ensures EscapeAt(s, 0) ==> Rewrite(s, eol) == eol + Rewrite(s[2..], eol)
    ensures !EscapeAt(s, 0) ==> Rewrite(s, eol) == [s[0]] + Rewrite(s[1..], eol)
  {
  }

  /**
   * The rewrite of a concatenation is the concatenation of the rewrites,
   * unless the cut separates the backslash and the n of a pair.
   */
  lemma {:induction false} RewriteAppend(a: string, b: string, eol: string)
    requires !(|a| > 0 && a[|a| - 1] == '\\' && |b| > 0 && b[0] == 'n')
    ensures Rewrite(a + b, eol) == Rewrite(a, eol) + Rewrite(b, eol)
    decreases |a|
  {
    var ab := a + b;
    if |a| == 0 {
      assert ab == b;
    } else if |b| == 0 {
      assert ab == a;
    } else if |a| == 1 {
      assert !EscapeAt(ab, 0) by { assert ab[0] == a[0] && ab[1] == b[0]; }
      assert ab[1..] == b;
      RewriteStep(ab, eol);
    } else if EscapeAt(a, 0) {
      assert EscapeAt(ab, 0) by { assert ab[0] == a[0] && ab[1] == a[1]; }
      assert ab[2..] == a[2..] + b;
      RewriteStep(ab, eol);
      RewriteStep(a, eol);
      RewriteAppend(a[2..], b, eol);
    } else {
      assert !EscapeAt(ab, 0) by { assert ab[0] == a[0] && ab[1] == a[1]; }
      assert ab[1..] == a[1..] + b;
      RewriteStep(ab, eol);
      RewriteStep(a, eol);
      RewriteAppend(a[1..], b, eol);
    }
  }

  /** An end of line that can never complete a backslash-n pair. */
  predicate SafeEol(eol: string) {
    eol != [] && '\\' !in eol && eol[0] != 'n'
  }

  /** Both values of `PHP_EOL` are safe. */
  lemma PhpEolIsSafe()
    ensures SafeEol("\n") && SafeEol("\r\n")
  {
  }

  /** The first character of a rewrite. */
  lemma RewriteHead(s: string, eol: string)
    requires |s| > 0 && eol != []
    ensures |Rewrite(s, eol)| > 0
    ensures Rewrite(s, eol)[0] == if EscapeAt(s, 0) then eol[0] else s[0]
  {
  }

  /** With a safe end of line, no backslash-n pair survives the rewrite. */
  lemma {:induction false} RewriteLeavesNoEscape(s: string, eol: string)
    requires SafeEol(eol)
    ensures NoEscape(Rewrite(s, eol))
    decreases |s|
  {
    var r := Rewrite(s, eol);
    if |s| < 2 {
      assert r == s;
    } else if EscapeAt(s, 0) {
      var rest := Rewrite(s[2..], eol);
      RewriteLeavesNoEscape(s[2..], eol);
      assert r == eol + rest;
      forall i | 0 <= i < |r| ensures !EscapeAt(r, i) {
        if i < |eol| {
          assert r[i] == eol[i];
          assert r[i] != '\\';
        } else {
          assert !EscapeAt(rest, i - |eol|);
        }
      }
    } else {
      var rest := Rewrite(s[1..], eol);
      RewriteLeavesNoEscape(s[1..], eol);
      assert r == [s[0]] + rest;
      RewriteHead(s[1..], eol);
      forall i | 0 <= i < |r| ensures !EscapeAt(r, i) {
        if i == 0 {
          assert r[1] == rest[0];
        } else {
          assert !EscapeAt(rest, i - 1);
        }
      }
    }
  }

  /** With a safe end of line, rewriting twice is rewriting once. */
  lemma RewriteIdempotent(s: string, eol: string)
    requires SafeEol(eol)
    ensures Rewrite(Rewrite(s, eol), eol) == Rewrite(s, eol)
  {
    RewriteLeavesNoEscape(s, eol);
    RewriteKeepsEscapeFree(Rewrite(s, eol), eol);
  }

  /**
   * Two escape-free lines typed with one backslash-n between them become
   * the two lines joined by the end of line, as in
   * `--content="User-agent: *\nDisallow: /"`.
   */
  lemma {:induction false} RewriteTwoLines(first: string, second: string, eol: string)
    requires NoEscape(first) && NoEscape(second)
    requires |first| > 0 ==> first[|first| - 1] != '\\'
    ensures Rewrite(first + "\\n" + second, eol) == first + eol + second
  {
    var pair: string := "\\n";
    assert Rewrite(pair, eol) == eol by { RewriteStep(pair, eol); }
    RewriteAppend(pair, second, eol);
    RewriteAppend(first, pair + second, eol);
    RewriteKeepsEscapeFree(first, eol);
    RewriteKeepsEscapeFree(second, eol);
    assert first + pair + second == first + (pair + second);
  }

  // ---------------------------------------------------------------------
  // Target directory and options array
  // ---------------------------------------------------------------------

  /**
   * The directory option as stored: verbatim when absolute, without any
   * check; joined to the working directory when relative, and only if the
   * joined path is a writable directory.
   */
  function ResolveDirectory(env: Env, path: string): (r: Result<string, Failure>)
    ensures env.isAbsolute(path) ==> r == Ok(path)
    ensures !env.isAbsolute(path) ==>
      (r.Ok? <==> UsableDirectory(env, Join(env, path))) &&
      (r.Ok? ==> r.value == env.cwd + env.sep + path) &&
      (r.Err? ==> r.error == DirectoryUnavailable(path))
  {
    if env.isAbsolute(path) then Ok(path)
    else
      var relativePath := Join(env, path);
      if UsableDirectory(env, relativePath) then Ok(relativePath)
      else Err(DirectoryUnavailable(path))
  }

  /** The options array `create` builds, or the exception it raises. */
  function CreateOptions(env: Env, input: Input): (r: Result<map<Key, string>, Failure>)
    ensures r.Err? <==>
      Truthy(GetOption(input, Name(Path))) && ResolveDirectory(env, input[Name(Path)]).Err?
    ensures r.Err? ==> r.error == DirectoryUnavailable(input[Name(Path)])
    ensures r.Ok? ==> r.value.Keys <= {Path, Content}
    ensures r.Ok? ==> (Path in r.value <==> Truthy(GetOption(input, Name(Path))))
    ensures r.Ok? && Path in r.value ==> r.value[Path] == ResolveDirectory(env, input[Name(Path)]).value
    ensures r.Ok? ==> (Content in r.value <==> Truthy(GetOption(input, Name(Content))))
    ensures r.Ok? && Content in r.value ==> r.value[Content] == Rewrite(input[Name(Content)], env.eol)
  {
    var path := GetOption(input, Name(Path));
    var content := GetOption(input, Name(Content));
    var resolved := if Truthy(path) then ResolveDirectory(env, path.value) else Ok("");
    if resolved.Err? then Err(resolved.error)
    else
      var withPath: map<Key, string> := if Truthy(path) then map[Path := resolved.value] else map[];
      Ok(if Truthy(content) then withPath[Content := Rewrite(content.value, env.eol)] else withPath)
  }

  /** `create` up to the callback: fills the options array key by key, or throws. */
  method BuildCreateOptions(env: Env, input: Input) returns (r: Result<map<Key, string>, Failure>)
    ensures r == CreateOptions(env, input)
  {
    var options: map<Key, string> := map[];
    var path := GetOption(input, Name(Path));
    if Truthy(path) {
      if env.isAbsolute(path.value) {
        options := options[Path := path.value];
      } else {
        var relativePath := Join(env, path.value);
        if UsableDirectory(env, relativePath) {
          options := options[Path := relativePath];
        } else {
          return Err(DirectoryUnavailable(path.value));
        }
      }
    }
    var content := GetOption(input, Name(Content));
    if Truthy(content) {
      options := options[Content := Rewrite(content.value, env.eol)];
    }
    return Ok(options);
  }

  /**
   * What `create` does: throw before any file call when the directory is
   * unusable, or when the callback is interrupted before `makeFile`;
   * otherwise one `makeFile` call through `createRobots`, after which it
   * returns SUCCESS unless the file primitive threw.
   */
  function CreateRun(env: Env, lib: Library, current: Settings, input: Input, step: FileStep): (run: HandlerRun)
    ensures CreateOptions(env, input).Err? ==>
      run == HandlerRun(None, Raised(CreateOptions(env, input).error))
    ensures CreateOptions(env, input).Ok? && step.Interrupted? ==>
      run == HandlerRun(None, Raised(step.failure))
    ensures CreateOptions(env, input).Ok? && step.Reached? ==>
      run.call == Some(CreateRobots(lib, current, CreateOptions(env, input).value, false)) &&
      run.outcome == AfterAction(step.io)
    ensures run.outcome.Returned? ==> run.outcome.status == SUCCESS
  {
    match CreateOptions(env, input)
    case Err(f) => HandlerRun(None, Raised(f))
    case Ok(options) =>
      match step
      case Interrupted(f) => HandlerRun(None, Raised(f))
      case Reached(io) => HandlerRun(Some(CreateRobots(lib, current, options)), AfterAction(io))
  }
}
