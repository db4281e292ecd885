/**
 * The options record of the `robots.txt` file: a class of public mutable
 * fields with defaults, built from an initialisation array.
 */
module RobotsOptionsModel {
  import opened Common

  /** The value held by a `RobotsOptions` object, one component per public field. */
  datatype Settings = Settings(
    append: bool,
    content: Option<string>,
    file: Option<string>,
    force: bool,
    group: Option<string>,
    lock: bool,
    overwrite: Option<bool>,
    owner: Option<string>,
    permissions: Option<int>)

  /** The declared defaults (`content` is read as null, as the options test expects). */
  const Defaults: Settings :=
    Settings(false, None, None, true, None, true, Some(true), None, None)

  /** The names of the public fields, as used in an initialisation array. */
  const FieldNames: set<string> :=
    {"append", "content", "file", "force", "group", "lock", "overwrite", "owner", "permissions"}

  /** Whether a value may be stored in the typed property of that name. */
  predicate Fits(key: string, v: PhpValue) {
    if key in {"append", "force", "lock"} then v.Bool?
    else if key in {"content", "file", "group", "owner"} then v.Str? || v.Null?
    else if key == "overwrite" then v.Bool? || v.Null?
    else if key == "permissions" then v.Int? || v.Null?
    else true
  }

  /** Every entry of an initialisation array fits the property it names. */
  predicate WellTyped(init: map<string, PhpValue>) {
    forall k :: k in init ==> Fits(k, init[k])
  }

  function Text(o: Option<string>): PhpValue {
    if o.Some? then Str(o.value) else Null
  }

  function TextOr(init: map<string, PhpValue>, key: string, dflt: Option<string>): Option<string> {
    if key !in init then dflt
    else if init[key].Str? then Some(init[key].s)
    else None
  }

  function FlagOr(init: map<string, PhpValue>, key: string, dflt: bool): bool {
    if key in init && init[key].Bool? then init[key].b else dflt
  }

  /** A field of the record read back as a PHP value. */
  function Field(s: Settings, key: string): PhpValue {
    match key
    case "append" => Bool(s.append)
    case "content" => Text(s.content)
    case "file" => Text(s.file)
    case "force" => Bool(s.force)
    case "group" => Text(s.group)
    case "lock" => Bool(s.lock)
    case "overwrite" => if s.overwrite.Some? then Bool(s.overwrite.value) else Null
    case "owner" => Text(s.owner)
    case "permissions" => if s.permissions.Some? then Int(s.permissions.value) else Null
    case _ => Null
  }

  /** A record is determined by its fields. */
  lemma FieldsDetermineSettings(s: Settings, t: Settings)
    requires forall k :: k in FieldNames ==> Field(s, k) == Field(t, k)
    ensures s == t
  {
  }

  /**
   * The record built from an initialisation array: each supplied field
   * takes exactly the supplied value, every other field keeps its default,
   * and keys that name no field are ignored.
   */
  function FromInit(init: map<string, PhpValue>): (s: Settings)
    requires WellTyped(init)
    ensures forall k :: k in FieldNames ==>
      Field(s, k) == if k in init then init[k] else Field(Defaults, k)
  {
    Settings(
      FlagOr(init, "append", false),
      TextOr(init, "content", None),
      TextOr(init, "file", None),
      FlagOr(init, "force", true),
      TextOr(init, "group", None),
      FlagOr(init, "lock", true),
      if "overwrite" in init then
        (if init["overwrite"].Bool? then Some(init["overwrite"].b) else None)
      else Some(true),
      TextOr(init, "owner", None),
      if "permissions" in init && init["permissions"].Int? then Some(init["permissions"].i) else None)
  }

  /** The initialisation array that lists every field of a record. */
  function ToInit(s: Settings): (init: map<string, PhpValue>)
    ensures init.Keys == FieldNames
  {
    map k | k in FieldNames :: Field(s, k)
  }

  /** Writing a record out as an array and building from it gives it back. */
  lemma {:induction false} FromInitToInit(s: Settings)
    ensures WellTyped(ToInit(s)) && FromInit(ToInit(s)) == s
  {
    var init := ToInit(s);
    forall k | k in init ensures Fits(k, init[k]) {
      assert init[k] == Field(s, k);
    }
    var t := FromInit(init);
    forall k | k in FieldNames ensures Field(t, k) == Field(s, k) {
      assert k in init;
    }
    FieldsDetermineSettings(t, s);
  }

  /** With nothing supplied, every field has its declared default. */
  lemma FromEmptyIsDefaults()
    ensures FromInit(map[]) == Defaults
  {
  }

  class RobotsOptions {
    var append: bool
    var content: Option<string>
    var file: Option<string>
    var force: bool
    var group: Option<string>
    var lock: bool
    var overwrite: Option<bool>
    var owner: Option<string>
    var permissions: Option<int>

    /** The record this object currently holds. */
    function Value(): Settings
      reads this
    {
      Settings(append, content, file, force, group, lock, overwrite, owner, permissions)
    }

    /** `new RobotsOptions($init)`. */
    constructor (init: map<string, PhpValue> := map[])
      requires WellTyped(init)
      ensures Value() == FromInit(init)
    {
      var s := FromInit(init);
      append, content, file, force := s.append, s.content, s.file, s.force;
      group, lock, overwrite := s.group, s.lock, s.overwrite;
      owner, permissions := s.owner, s.permissions;
    }

    /** `__toString`: the file when it is set, the empty string otherwise. */
    function ToString(): (str: string)
      reads this
      ensures file.Some? ==> str == file.value
      ensures file.None? ==> str == ""
    {
      if file.Some? then file.value else ""
    }
  }

  /**
   * A fresh object renders as the empty string, and assigning its `file`
   * field is reflected by the next rendering.
   */
  method FileAssignmentIsRendered(path: string) returns (before: string, after: string)
    ensures before == "" && after == path
  {
    var opts := new RobotsOptions();
    before := opts.ToString();
    opts.file := Some(path);
    after := opts.ToString();
  }
}
