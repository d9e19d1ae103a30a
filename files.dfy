/** The file-type dispatch of `files.py`: a path's suffix picks the JSON or
    the YAML handler. Paths are POSIX paths, parsed as `pathlib` does. */
module Files {
  import opened Errors
  import opened Builtins

  /** The `FileTypes` enum; each member's value is the suffix without its dot. */
  datatype FileType = JSON | YAML

  function FileTypeValue(t: FileType): string {
    match t
    case JSON => "json"
    case YAML => "yaml"
  }

  /** The position of the last `c` in `s`, or -1. */
  function LastIndexOf(s: string, c: char): (i: int)
    ensures -1 <= i < |s|
    ensures i >= 0 ==> s[i] == c
    ensures forall j :: i < j < |s| ==> s[j] != c
  {
    if s == [] then -1
    else if s[|s| - 1] == c then |s| - 1
    else LastIndexOf(s[..|s| - 1], c)
  }

  /** `Path(p).name`: the last component of `p`, where empty components
      and `.` components do not count. */
  function PathName(p: string): (name: string)
    ensures '/' !in name
    ensures name != "."
    decreases |p|
  {
    var i := LastIndexOf(p, '/');
    var last := p[i + 1..];
    if last != "" && last != "." then last
    else if i < 0 then ""
    else PathName(p[..i])
  }

  /** `Path(p).suffix`: from the last dot of the name on, when that dot is
      neither the first nor the last character of the name. */
  function Suffix(p: string): (s: string)
    ensures s == "" || (2 <= |s| && s[0] == '.' && '.' !in s[1..] && '/' !in s)
  {
    NameSuffix(PathName(p))
  }

  /** The suffix of a name without slashes. */
  function NameSuffix(name: string): (s: string)
    requires '/' !in name
    ensures s == "" || (2 <= |s| && s[0] == '.' && '.' !in s[1..] && '/' !in s)
  {
    var i := LastIndexOf(name, '.');
    if 0 < i < |name| - 1 then name[i..] else ""
  }

  /** `get_file_type`: the lowercased suffix without its dot must be the
      value of a `FileTypes` member; anything else is a TypeError. */
  function GetFileType(p: string): (r: Result<FileType>)
    ensures r == Ok(JSON) <==> Lower(Suffix(p)) == ".json"
    ensures r == Ok(YAML) <==> Lower(Suffix(p)) == ".yaml"
    ensures r.Err? ==> r.error.kind == TypeError
  {
    TypeOfSuffixText(Suffix(p))
  }

  /** The file type a suffix names, letter case ignored. */
  function TypeOfSuffixText(suffix: string): (r: Result<FileType>)
    ensures r == Ok(JSON) <==> Lower(suffix) == ".json"
    ensures r == Ok(YAML) <==> Lower(suffix) == ".yaml"
    ensures r.Err? ==> r.error.kind == TypeError
  {
    var s := Lower(suffix);
    if s == ".json" then Ok(JSON)
    else if s == ".yaml" then Ok(YAML)
    else Raise(TypeError)
  }

  /** The file handler a path is given to. */
  datatype Handler = JsonFile(path: string) | YamlFile(path: string)

  /** `get_file_objects`: the handler for the path's type. */
  function GetFileObjects(p: string): (r: Result<Handler>)
    ensures r.Ok? <==> GetFileType(p).Ok?
    ensures r.Ok? ==> r.value.path == p
    ensures r.Ok? ==> (r.value.JsonFile? <==> GetFileType(p) == Ok(JSON))
    ensures r.Err? ==> r.error.kind == TypeError
  {
    var t :- GetFileType(p);
    match t
    case JSON => Ok(JsonFile(p))
    case YAML => Ok(YamlFile(p))
  }

  /** The write `write_dict_to_file` asks a handler for. */
  datatype WriteRequest<D> = WriteRequest(handler: Handler, data: D, rebase: bool)

  /** `write_dict_to_file`: the file type is settled before any handler is
      made, so an unsupported path is refused with nothing written. */
  function WriteDictToFile<D>(data: D, p: string, rebase: bool): (r: Result<WriteRequest<D>>)
    ensures r.Ok? <==> GetFileType(p).Ok?
    ensures r.Ok? ==> r.value.handler == GetFileObjects(p).value && r.value.data == data && r.value.rebase == rebase
    ensures r.Err? ==> r.error == GetFileType(p).error
  {
    var t :- GetFileType(p);
    match t
    case JSON => Ok(WriteRequest(JsonFile(p), data, rebase))
    case YAML => Ok(WriteRequest(YamlFile(p), data, rebase))
  }

  /** A file named `stem` plus a type's suffix is read as that type. */
  lemma FileTypeRoundTrip(dir: string, stem: string, t: FileType)
    requires stem != [] && '/' !in stem
    ensures GetFileType(dir + "/" + stem + "." + FileTypeValue(t)) == Ok(t)
  {
    SuffixAfterStem(dir, stem, FileTypeValue(t));
    SuffixNamesType(t);
  }

  /** A type's own suffix names that type. */
  lemma SuffixNamesType(t: FileType)
    ensures TypeOfSuffixText("." + FileTypeValue(t)) == Ok(t)
  {
    var s := "." + FileTypeValue(t);
    assert Lower(s) == s;
  }

  lemma SuffixAfterStem(dir: string, stem: string, ext: string)
    requires stem != [] && '/' !in stem
    requires ext != [] && '/' !in ext && '.' !in ext
    ensures Suffix(dir + "/" + stem + "." + ext) == "." + ext
  {
    var name := stem + "." + ext;
    assert dir + "/" + stem + "." + ext == (dir + "/") + name;
    NameAfterDir(dir + "/", name);
    StemSuffix(stem, ext);
  }

  /** The suffix of `stem.ext` is `.ext`. */
  lemma StemSuffix(stem: string, ext: string)
    requires stem != [] && '/' !in stem
    requires ext != [] && '/' !in ext && '.' !in ext
    ensures '/' !in stem + "." + ext
    ensures NameSuffix(stem + "." + ext) == "." + ext
  {
    var name := stem + "." + ext;
    assert name == (stem + ".") + ext;
    LastIndexAfter(stem + ".", ext, '.');
    assert name[|stem|..] == "." + ext;
  }

  /** The name of a path that ends in a plain component is that component. */
  lemma NameAfterDir(a: string, name: string)
    requires a != [] && a[|a| - 1] == '/' && '/' !in name && name != "" && name != "."
    ensures PathName(a + name) == name
  {
    LastIndexAfter(a, name, '/');
    assert (a + name)[|a|..] == name;
  }

  /** The last `c` of `a + b`, when `a` ends with `c` and `b` has none. */
  lemma {:induction false} LastIndexAfter(a: string, b: string, c: char)
    requires a != [] && a[|a| - 1] == c && c !in b
    ensures LastIndexOf(a + b, c) == |a| - 1
    decreases |b|
  {
    if b == [] {
      assert a + b == a;
    } else {
      assert (a + b)[..|a + b| - 1] == a + b[..|b| - 1];
      LastIndexAfter(a, b[..|b| - 1], c);
    }
  }

  lemma {:induction false} LastIndexAbsent(s: string, c: char)
    requires c !in s
    ensures LastIndexOf(s, c) == -1
    decreases |s|
  {
    if s != [] {
      LastIndexAbsent(s[..|s| - 1], c);
    }
  }

  /** The short YAML spelling is refused. */
  lemma ShortYamlRefused(dir: string, stem: string)
    requires stem != [] && '/' !in stem
    ensures GetFileType(dir + "/" + stem + ".yml").Err?
  {
    var x := dir + "/" + stem;
    assert "." + "yml" == ".yml";
    assert x + "." + "yml" == x + ("." + "yml");
    SuffixAfterStem(dir, stem, "yml");
    ShortYamlText();
  }

  lemma ShortYamlText()
    ensures TypeOfSuffixText(".yml").Err?
  {
    var l := Lower(".yml");
    assert |l| == 4;
  }

  /** A file whose name has no dot has no suffix, so it is refused. */
  lemma NoSuffixRefused(dir: string, stem: string)
    requires stem != [] && '/' !in stem && '.' !in stem
    ensures GetFileType(dir + "/" + stem).Err?
  {
    NameAfterDir(dir + "/", stem);
    LastIndexAbsent(stem, '.');
    assert Suffix(dir + "/" + stem) == "";
  }

  /** A dot file has no suffix, so it is refused too. */
  lemma DotFileRefused(dir: string, ext: string)
    requires ext != [] && '/' !in ext && '.' !in ext
    ensures GetFileType(dir + "/." + ext).Err?
  {
    var name := "." + ext;
    assert dir + "/." + ext == (dir + "/") + name;
    NameAfterDir(dir + "/", name);
    LastIndexAfter(".", ext, '.');
    assert Suffix(dir + "/." + ext) == "";
  }

  /** The letter case of the suffix does not matter. */
  lemma SuffixCaseIgnored(dir: string, stem: string)
    requires stem != [] && '/' !in stem
    ensures GetFileType(dir + "/" + stem + ".JSON") == Ok(JSON)
  {
    var x := dir + "/" + stem;
    assert "." + "JSON" == ".JSON";
    assert x + "." + "JSON" == x + ("." + "JSON");
    SuffixAfterStem(dir, stem, "JSON");
    UpperJson();
  }

  lemma UpperJson()
    ensures TypeOfSuffixText(".JSON") == Ok(JSON)
  {
    var l := Lower(".JSON");
    assert l[0] == '.' && l[1] == 'j' && l[2] == 's' && l[3] == 'o' && l[4] == 'n';
    assert l == ".json";
  }
}
