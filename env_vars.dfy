/** Env-var sentinels: a plain dict `{"env_var": n}` stands for the value
    of the environment variable `n`, and `{"enc_env_var": n}` for the KMS
    decryption of that variable's value. */
module EnvVars {
  import opened Errors
  import opened Values
  import opened Dicts

  /** `os.environ[name]`: only a str can name a variable. */
  function GetVar(name: Value, host: Host): Result<Value> {
    match name
    case Str(n) => if n in host.environ then Ok(Str(host.environ[n])) else Err(Error(KeyError, [n]))
    case _ => Raise(TypeError)
  }

  /** `decode_kms(get_var(name))`; decryption belongs to the host. */
  function GetKmsVar(name: Value, host: Host): Result<Value> {
    var blob :- GetVar(name, host);
    var plain :- host.decrypt(blob.s);
    Ok(Str(plain))
  }

  /** A KeyError raised while resolving is raised again as a KeyError
      naming the variable; other exceptions pass through. */
  function Rewrap(r: Result<Value>, name: Value): Result<Value> {
    if r.Err? && r.error.kind == KeyError then Err(Error(KeyError, if name.Str? then [name.s] else []))
    else r
  }

  /** `check_for_env_vars(value)` */
  function CheckForEnvVars(value: Value, host: Host): (r: Result<Value>)
    // only a value of type exactly `dict` can be a sentinel
    ensures !(value.Dict? && value.exact) ==> r == Ok(value)
    ensures value.Dict? && "env_var" !in Keys(value.entries) && "enc_env_var" !in Keys(value.entries) ==> r == Ok(value)
    // a resolved sentinel is always a str
    ensures r.Ok? ==> r.value == value || r.value.Str?
  {
    match value
    case Dict(e, true) =>
      if "env_var" in Keys(e) then
        var name := Get(e, "env_var").value;
        Rewrap(GetVar(name, host), name)
      else if "enc_env_var" in Keys(e) then
        var name := Get(e, "enc_env_var").value;
        Rewrap(GetKmsVar(name, host), name)
      else Ok(value)
    case _ => Ok(value)
  }

  /** `{"env_var": n}` is replaced by the value of `n`; an unset `n` is a
      KeyError. `env_var` is looked at first, whatever else the dict holds. */
  lemma EnvVarSentinel(e: Entries, n: string, host: Host)
    requires Get(e, "env_var") == Some(Str(n))
    ensures n in host.environ ==> CheckForEnvVars(Dict(e, true), host) == Ok(Str(host.environ[n]))
    ensures n !in host.environ ==> CheckForEnvVars(Dict(e, true), host) == Err(Error(KeyError, [n]))
  {
  }

  /** `{"enc_env_var": n}` is replaced by the decryption of the value of
      `n`; an unset `n` is a KeyError. */
  lemma EncEnvVarSentinel(e: Entries, n: string, host: Host)
    requires "env_var" !in Keys(e) && Get(e, "enc_env_var") == Some(Str(n))
    ensures n !in host.environ ==> CheckForEnvVars(Dict(e, true), host) == Err(Error(KeyError, [n]))
    ensures n in host.environ && host.decrypt(host.environ[n]).Ok? ==>
      CheckForEnvVars(Dict(e, true), host) == Ok(Str(host.decrypt(host.environ[n]).value))
    ensures n in host.environ && host.decrypt(host.environ[n]).Err? && host.decrypt(host.environ[n]).error.kind != KeyError ==>
      CheckForEnvVars(Dict(e, true), host) == Err(host.decrypt(host.environ[n]).error)
  {
  }
}
