/**
 * The names of the `command:robots` console options.
 *
 * The constant table as written defines OVERWRITE with the value of OWNER
 * and defines no PATH at all, although `create` reads `RobotsOption::PATH`
 * and the option tests expect 'overwrite' and 'path'. Both tables are
 * modelled: `AsWritten` exhibits the two defects, `Corrected` is the table
 * the rest of the model reads option names from.
 */
module RobotsOption {
  import opened Common

  /** The constants `RobotsOption` is used with, PATH included. */
  datatype Constant = CONTENT | FILE | GROUP | OVERWRITE | OWNER | PERMISSIONS | PATH

  /** The constant table as declared: PATH is undefined, OVERWRITE is 'owner'. */
  function AsWritten(c: Constant): (v: Option<string>)
    ensures v.None? <==> c == PATH
  {
    match c
    case CONTENT => Some("content")
    case FILE => Some("file")
    case GROUP => Some("group")
    case OVERWRITE => Some("owner")
    case OWNER => Some("owner")
    case PERMISSIONS => Some("permissions")
    case PATH => None
  }

  /** Two distinct options share one console name in the declared table. */
  lemma AsWrittenOverwriteIsOwner()
    ensures OVERWRITE != OWNER && AsWritten(OVERWRITE) == AsWritten(OWNER)
  {
  }

  /** The table the options tests expect: every constant defined, and distinct. */
  function Corrected(c: Constant): (v: string)
    ensures AsWritten(c).Some? && c != OVERWRITE ==> v == AsWritten(c).value
  {
    match c
    case CONTENT => "content"
    case FILE => "file"
    case GROUP => "group"
    case OVERWRITE => "overwrite"
    case OWNER => "owner"
    case PERMISSIONS => "permissions"
    case PATH => "path"
  }

  /** No two constants of the corrected table share a name. */
  lemma CorrectedInjective(c: Constant, d: Constant)
    ensures Corrected(c) == Corrected(d) ==> c == d
  {
    if Corrected(c) == Corrected(d) {
      match c
      case CONTENT => assert Corrected(d)[0] == 'c';
      case FILE => assert Corrected(d)[0] == 'f';
      case GROUP => assert Corrected(d)[0] == 'g';
      case OVERWRITE => assert Corrected(d)[1] == 'v';
      case OWNER => assert Corrected(d)[1] == 'w';
      case PERMISSIONS => assert Corrected(d)[0] == 'p' && Corrected(d)[1] == 'e';
      case PATH => assert Corrected(d)[0] == 'p' && Corrected(d)[1] == 'a';
    }
  }

  /** The keys `create` and `remove` put into their options array. */
  datatype Key = Path | File | Content

  /** The constant a key is written with in the actions. */
  function ConstantOf(k: Key): Constant {
    match k
    case Path => PATH
    case File => FILE
    case Content => CONTENT
  }

  /** The console option name a key is read under. */
  function Name(k: Key): string {
    Corrected(ConstantOf(k))
  }

  /** Distinct keys are read from distinct console options. */
  lemma NamesDistinct(j: Key, k: Key)
    ensures Name(j) == Name(k) ==> j == k
  {
    CorrectedInjective(ConstantOf(j), ConstantOf(k));
  }
}
