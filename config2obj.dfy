/** `Config2Obj`: a user config and its template, loaded as objects from
    files of one type, and the merge that fills the user config from the
    template. */
module Config2Obj {
  import opened Errors
  import opened Values
  import opened Dicts
  import opened Builtins
  import Files
  import Json2Obj

  /** `Config2Obj.get_file_type`: the lowercased suffix must be ".yaml" or
      ".json"; the type is that suffix without its dot. */
  function GetFileType(p: string): (r: Result<string>)
    ensures r.Ok? <==> Lower(Files.Suffix(p)) in [".yaml", ".json"]
    ensures r.Ok? ==> "." + r.value == Lower(Files.Suffix(p))
    ensures r.Err? ==> r.error.kind == TypeError
  {
    var s := Lower(Files.Suffix(p));
    if s !in [".yaml", ".json"] then Raise(TypeError) else Ok(s[1..])
  }

  /** This check and the one of `files.py` accept the same paths and name
      the same type. */
  lemma GetFileTypeAgrees(p: string)
    ensures GetFileType(p).Ok? <==> Files.GetFileType(p).Ok?
    ensures GetFileType(p).Ok? ==> GetFileType(p).value == Files.FileTypeValue(Files.GetFileType(p).value)
  {
    var s := Lower(Files.Suffix(p));
    if s == ".json" {
      assert ".json"[1..] == "json";
    } else if s == ".yaml" {
      assert ".yaml"[1..] == "yaml";
    }
  }

  /** `check_files`: both files must have a supported type, and the same one. */
  function CheckFiles(f1: string, f2: string): (r: Result<string>)
    ensures r.Ok? <==> GetFileType(f1).Ok? && GetFileType(f2).Ok? && GetFileType(f1).value == GetFileType(f2).value
    ensures r.Ok? ==> r.value == GetFileType(f1).value && r.value in ["yaml", "json"]
    ensures GetFileType(f1).Err? ==> r == GetFileType(f1)
    ensures GetFileType(f1).Ok? && GetFileType(f2).Err? ==> r == GetFileType(f2)
    ensures r.Err? ==> r.error.kind == TypeError
  {
    var t1 :- GetFileType(f1);
    var t2 :- GetFileType(f2);
    if t1 != t2 then Raise(TypeError) else Ok(t1)
  }

  /** `update_user_config_from_template`'s dict: the template's `to_dict`
      updated with the user's. */
  function Merged(template: Entries, user: Entries): Entries {
    Update(Json2Obj.AsDict(template), Json2Obj.AsDict(user))
  }

  /** The merge holds every template key and every user key, the template's
      first; on a shared key the user's value wins, and a key only the
      template has keeps the template's value. */
  lemma MergeUserWins(template: Entries, user: Entries)
    requires Distinct(user)
    ensures forall k :: k in Keys(Merged(template, user)) <==>
      k in Keys(Json2Obj.AsDict(template)) || k in Keys(Json2Obj.AsDict(user))
    ensures forall k :: k in Keys(Json2Obj.AsDict(user)) ==> Get(Merged(template, user), k) == Get(Json2Obj.AsDict(user), k)
    ensures forall k :: k !in Keys(Json2Obj.AsDict(user)) ==>
      Get(Merged(template, user), k) == Get(Json2Obj.AsDict(template), k)
    ensures Keys(Merged(template, user))[..|Json2Obj.AsDict(template)|] == Keys(Json2Obj.AsDict(template))
  {
    Json2Obj.AsDictDistinct(user);
  }

  class Config2Obj {
    /** The attributes of the two loaded objects. */
    var userConfig: Entries
    var configTemplate: Entries
    const userPath: string
    const templatePath: string

    constructor (userPath: string, templatePath: string, userConfig: Entries, configTemplate: Entries)
      ensures this.userPath == userPath && this.templatePath == templatePath
      ensures this.userConfig == userConfig && this.configTemplate == configTemplate
    {
      this.userPath := userPath;
      this.templatePath := templatePath;
      this.userConfig := userConfig;
      this.configTemplate := configTemplate;
    }

    /** `Config2Obj(user_config, config_template)`. `load(type, path)` is
        the file handler of that type loading the path into an object; the
        type check comes first, so a bad pair of paths is refused whatever
        `load` would do. */
    static method New(userPath: string, templatePath: string, load: (string, string) -> Result<Entries>)
      returns (r: Result<Config2Obj>)
      ensures CheckFiles(userPath, templatePath).Err? ==> r == Err(CheckFiles(userPath, templatePath).error)
      ensures r.Ok? ==>
        var t := CheckFiles(userPath, templatePath).value;
        CheckFiles(userPath, templatePath).Ok? && fresh(r.value) &&
        load(t, userPath).Ok? && r.value.userConfig == load(t, userPath).value &&
        load(t, templatePath).Ok? && r.value.configTemplate == load(t, templatePath).value
      ensures CheckFiles(userPath, templatePath).Ok? && r.Err? ==>
        var t := CheckFiles(userPath, templatePath).value;
        if load(t, userPath).Err? then r.error == load(t, userPath).error
        else load(t, templatePath).Err? && r.error == load(t, templatePath).error
      ensures r.Ok? ==> r.value.userPath == userPath && r.value.templatePath == templatePath
    {
      var fileType := CheckFiles(userPath, templatePath);
      if fileType.Err? {
        return Err(fileType.error);
      }
      var user := load(fileType.value, userPath);
      if user.Err? {
        return Err(user.error);
      }
      var template := load(fileType.value, templatePath);
      if template.Err? {
        return Err(template.error);
      }
      var c := new Config2Obj(userPath, templatePath, user.value, template.value);
      return Ok(c);
    }

    /** `update_user_config_from_template(update, save)`: the merge replaces
        the user config only when `update` is set; `save` does nothing. */
    method UpdateUserConfigFromTemplate(update: bool, save: bool, host: Host) returns (failure: Option<Error>)
      modifies this
      ensures var built := Json2Obj.Objectify(Dict(Merged(old(configTemplate), old(userConfig)), true),
                                              Json2Obj.CheckEnvVars, host);
        (failure.Some? <==> update && built.Err?) &&
        (failure.Some? ==> failure.value == built.error) &&
        userConfig == (if update && built.Ok? then built.value else old(userConfig))
      ensures configTemplate == old(configTemplate)
    {
      var merged := Merged(configTemplate, userConfig);
      if update {
        var built := Json2Obj.JSON2Obj.New(Dict(merged, true), Json2Obj.CheckEnvVars, host);
        if built.Err? {
          return Some(built.error);
        }
        userConfig := built.value.attrs;
      }
      return None;
    }
  }
}
