/**
 * `APIManager` in gemini-1.5-flash-8b.py: the single-model variant, which
 * keeps its key in a JSON file (`~/.browser_use/api_keys.json`) and lets
 * the `GOOGLE_API_KEY` environment variable take precedence over it.
 */
module GeminiKeys {
  import opened Wrappers
  import opened Strings

  /** The only model number this variant knows. */
  const ModelNum := "1"

  /**
   * The key file as `json.load` sees it: missing, not valid JSON, or a
   * JSON object mapping model numbers to keys.
   */
  datatype KeyFile = Absent | Malformed | Stored(keys: map<string, string>)

  /** `_ensure_key_file`: a missing file is created holding `{}`; an existing one is left alone. */
  function EnsuredFile(f: KeyFile): (g: KeyFile)
    ensures f == Absent ==> g == Stored(map[])
    ensures f != Absent ==> g == f
  {
    if f == Absent then Stored(map[]) else f
  }

  /** What `_load_keys` returns for file `f`. */
  function LoadedKeys(f: KeyFile): (m: map<string, string>)
    ensures f.Stored? ==> m == f.keys
    ensures !f.Stored? ==> m == map[]
  {
    if f.Stored? then f.keys else map[]
  }

  /** The environment value overrides the file when it is set and not blank. */
  predicate EnvOverrides(envValue: Option<string>) {
    envValue.Some? && Strip(envValue.value) != ""
  }

  /**
   * The answer of `get_key(model_num)` given the environment value and the
   * loaded keys: None for any other model number, otherwise the stripped
   * environment value if it is not blank, otherwise the stripped stored key
   * if that is not blank. It is never an empty or padded string.
   */
  function KeyLookup(modelNum: string, envValue: Option<string>, stored: map<string, string>): (r: Option<string>)
    ensures modelNum != ModelNum ==> r == None
    ensures r.Some? ==> r.value != "" && Strip(r.value) == r.value
    ensures modelNum == ModelNum && EnvOverrides(envValue) ==> r == Some(Strip(envValue.value))
  {
    if modelNum != ModelNum then None
    else if EnvOverrides(envValue) then
      StripIdempotent(envValue.value);
      Some(Strip(envValue.value))
    else
      var key := Strip(if modelNum in stored then stored[modelNum] else "");
      StripIdempotent(if modelNum in stored then stored[modelNum] else "");
      if key != "" then Some(key) else None
  }

  /** When the environment overrides, the file's contents do not matter. */
  lemma EnvironmentTakesPrecedence(envValue: Option<string>, m1: map<string, string>, m2: map<string, string>)
    requires EnvOverrides(envValue)
    ensures KeyLookup(ModelNum, envValue, m1) == KeyLookup(ModelNum, envValue, m2)
  {
  }

  /**
   * Round trip: with the environment variable unset or blank, a key stored
   * under "1" reads back stripped, or as None when it is only white space.
   */
  lemma StoredKeyReadsBackStripped(envValue: Option<string>, m: map<string, string>, key: string)
    requires !EnvOverrides(envValue)
    ensures KeyLookup(ModelNum, envValue, m[ModelNum := key]) == (if AllSpace(key) then None else Some(Strip(key)))
  {
    StripEmptyIffAllSpace(key);
  }

  /** After the entry is deleted, and without the environment override, nothing is found. */
  lemma RemovedKeyReadsBackNone(envValue: Option<string>, m: map<string, string>)
    requires !EnvOverrides(envValue)
    ensures KeyLookup(ModelNum, envValue, m - {ModelNum}) == None
  {
    assert Strip("") == "";
  }

  /** The status mark `list_models` prints for the key `get_key("1")` returned. */
  function StatusMark(key: Option<string>): (s: string)
    ensures s == "✅" <==> key.Some?
    ensures s == "❌" <==> key.None?
  {
    if key.Some? then "✅" else "❌"
  }

  class APIManager {
    var file: KeyFile

    constructor (initial: KeyFile)
      ensures file == initial
    {
      file := initial;
    }

    /** `_ensure_key_file()`. */
    method EnsureKeyFile()
      modifies this
      ensures file == EnsuredFile(old(file))
    {
      if file == Absent {
        file := Stored(map[]);
      }
    }

    /** `_load_keys()`: a missing file or malformed JSON loads as an empty map. */
    method LoadKeys() returns (keys: map<string, string>)
      modifies this
      ensures file == EnsuredFile(old(file))
      ensures keys == LoadedKeys(old(file))
      ensures old(file) == Absent || old(file) == Malformed ==> keys == map[]
    {
      EnsureKeyFile();
      match file
      case Stored(m) => keys := m;
      case _ => keys := map[];
    }

    /**
     * `_save_keys(keys)`; `saveSucceeds` is false when writing raised, and
     * then the file is as `_ensure_key_file` left it.
     */
    method SaveKeys(keys: map<string, string>, saveSucceeds: bool) returns (ok: bool)
      modifies this
      ensures ok == saveSucceeds
      ensures file == if ok then Stored(keys) else EnsuredFile(old(file))
    {
      EnsureKeyFile();
      if saveSucceeds {
        file := Stored(keys);
      }
      ok := saveSucceeds;
    }

    /**
     * `add_key(model_num, api_key)`: rejects any model number but "1" and an
     * empty key without touching the file; otherwise stores the key as
     * given (not stripped) and keeps every other entry.
     */
    method AddKey(modelNum: string, apiKey: string, saveSucceeds: bool) returns (ok: bool)
      modifies this
      ensures modelNum != ModelNum || apiKey == "" ==> !ok && file == old(file)
      ensures modelNum == ModelNum && apiKey != "" ==>
                && ok == saveSucceeds
                && file == if ok then Stored(LoadedKeys(old(file))[modelNum := apiKey]) else EnsuredFile(old(file))
    {
      if modelNum != ModelNum || apiKey == "" {
        return false;
      }
      var keys := LoadKeys();
      keys := keys[modelNum := apiKey];
      ok := SaveKeys(keys, saveSucceeds);
    }

    /**
     * `remove_key(model_num)`: fails for any model number but "1" and when
     * no entry is stored; otherwise deletes exactly that entry.
     */
    method RemoveKey(modelNum: string, saveSucceeds: bool) returns (ok: bool)
      modifies this
      ensures modelNum != ModelNum ==> !ok && file == old(file)
      ensures modelNum == ModelNum && modelNum !in LoadedKeys(old(file)) ==> !ok && file == EnsuredFile(old(file))
      ensures modelNum == ModelNum && modelNum in LoadedKeys(old(file)) ==>
                && ok == saveSucceeds
                && file == if ok then Stored(LoadedKeys(old(file)) - {modelNum}) else old(file)
    {
      if modelNum != ModelNum {
        return false;
      }
      var keys := LoadKeys();
      if modelNum in keys {
        keys := keys - {modelNum};
        ok := SaveKeys(keys, saveSucceeds);
      } else {
        ok := false;
      }
    }

    /**
     * `get_key(model_num)` with the value of `GOOGLE_API_KEY` as
     * `envValue`. The file is read, and created if missing, only when the
     * environment does not override it.
     */
    method GetKey(modelNum: string, envValue: Option<string>) returns (r: Option<string>)
      modifies this
      ensures r == KeyLookup(modelNum, envValue, LoadedKeys(old(file)))
      ensures file == if modelNum == ModelNum && !EnvOverrides(envValue) then EnsuredFile(old(file)) else old(file)
    {
      if modelNum != ModelNum {
        return None;
      }
      if envValue.Some? && Strip(envValue.value) != "" {
        return Some(Strip(envValue.value));
      }
      var keys := LoadKeys();
      var key := Strip(if modelNum in keys then keys[modelNum] else "");
      r := if key != "" then Some(key) else None;
    }
  }

  /**
   * `add_key("1", k)` followed by `get_key("1")` with the environment
   * variable unset: the key reads back stripped, or not at all when it is
   * only white space.
   */
  method AddThenGet(manager: APIManager, key: string) returns (added: bool, read: Option<string>)
    modifies manager
    ensures key != "" ==> added
    ensures added ==> read == (if AllSpace(key) then None else Some(Strip(key)))
  {
    added := manager.AddKey(ModelNum, key, true);
    read := manager.GetKey(ModelNum, None);
    StoredKeyReadsBackStripped(None, LoadedKeys(old(manager.file)), key);
  }
}
