/**
 * The dotenv file together with its mirror in the process environment,
 * seen as one map from variable name to value. `_update_env_safely` runs
 * under a file lock; each update is one atomic step here.
 */
module SecretStore {
  import opened Wrappers
  import opened Strings
  import opened Registry
  import opened KeyFormat

  type Env = map<string, string>

  /** `os.getenv(name)`: a variable set to "" is present, not absent. */
  function Getenv(env: Env, name: string): (r: Option<string>)
    ensures r.Some? <==> name in env
    ensures r.Some? ==> r.value == env[name]
  {
    if name in env then Some(env[name]) else None
  }

  /** Python truthiness of an optional string: present and non-empty. */
  predicate IsSet(v: Option<string>) {
    v.Some? && v.value != ""
  }

  /**
   * The value `_revert_key_safely(keyEnv, oldKey)` passes on to
   * `_update_env_safely`: the old key when it was set and is format-valid
   * for the provider that uses `keyEnv`, otherwise "".
   */
  function RevertTarget(keyEnv: string, oldKey: Option<string>): (r: string)
    ensures r != "" <==> IsSet(oldKey) && ValidateKeyFormat(GetProvider(Models, keyEnv), oldKey.value)
    ensures r != "" ==> oldKey == Some(r)
  {
    if IsSet(oldKey) && ValidateKeyFormat(GetProvider(Models, keyEnv), oldKey.value) then oldKey.value
    else ""
  }

  /** A variable that no model uses has no provider, so nothing is ever restored into it. */
  lemma RevertUnknownVariableClears(keyEnv: string, oldKey: Option<string>)
    requires forall i :: 0 <= i < |Models| ==> Models[i].config.keyEnv != keyEnv
    ensures RevertTarget(keyEnv, oldKey) == ""
  {
  }

  class Store {
    var env: Env

    constructor (initial: Env)
      ensures env == initial
    {
      env := initial;
    }

    /**
     * `_update_env_safely(keyEnv, newKey)`: writes `newKey.strip()` under
     * `keyEnv` and reports success. `writeSucceeds` stands for whether
     * `set_key` and `load_dotenv` raised; on failure nothing changes.
     */
    method UpdateEnvSafely(keyEnv: string, newKey: string, writeSucceeds: bool) returns (ok: bool)
      modifies this
      ensures ok == writeSucceeds
      ensures env == if ok then old(env)[keyEnv := Strip(newKey)] else old(env)
    {
      if writeSucceeds {
        env := env[keyEnv := Strip(newKey)];
        ok := true;
      } else {
        ok := false;
      }
    }

    /**
     * `_revert_key_safely(keyEnv, oldKey)`: restores the old key if it is
     * valid, otherwise clears the variable. The result of the write is
     * discarded, as in the source.
     */
    method RevertKeySafely(keyEnv: string, oldKey: Option<string>, writeSucceeds: bool)
      modifies this
      ensures env == if writeSucceeds then old(env)[keyEnv := Strip(RevertTarget(keyEnv, oldKey))] else old(env)
    {
      if IsSet(oldKey) && ValidateKeyFormat(GetProvider(Models, keyEnv), oldKey.value) {
        var _ := UpdateEnvSafely(keyEnv, oldKey.value, writeSucceeds);
      } else {
        var _ := UpdateEnvSafely(keyEnv, "", writeSucceeds);
      }
    }
  }
}
