/**
 * The decision logic of `LLMManager` in main.py: key status, live
 * verification with an abstract probe, the status table, and the
 * validate -> snapshot -> write -> verify -> commit-or-revert transaction
 * behind "Add/Update API Key", with its removal counterpart.
 */
module LLMManager {
  import opened Wrappers
  import opened Strings
  import opened Registry
  import opened KeyFormat
  import opened SecretStore

  /**
   * What the single verification request to the provider produced: the
   * client could not be built, the request raised, or a reply came back
   * with this text content.
   */
  datatype Probe = ClientInitFailed(error: string) | RequestFailed(error: string) | Replied(content: string)

  /** The probe accepts any reply whose text contains "OK". */
  predicate ProbeConfirms(p: Probe) {
    p.Replied? && Contains(p.content, "OK")
  }

  /** The `(bool, str)` pair `verify_api_key` returns. */
  datatype Verdict = Verdict(ok: bool, message: string)

  /** The text of a Python `KeyError` for a string key without quotes, backslashes or control characters (its `repr`). */
  function KeyErrorText(key: string): string {
    "'" + key + "'"
  }

  /**
   * `check_api_key(model_id)`: the id names a model, its key variable holds
   * a non-empty value, and that value is format-valid for the model's provider.
   */
  function CheckApiKey(env: Env, modelId: string): (r: bool)
    ensures Lookup(Models, modelId).None? ==> !r
    ensures r ==> var c := Lookup(Models, modelId).value;
                  && c.keyEnv in env && env[c.keyEnv] != ""
                  && ValidateKeyFormat(Some(c.provider), env[c.keyEnv])
    ensures Lookup(Models, modelId).Some? ==>
              var c := Lookup(Models, modelId).value;
              c.keyEnv in env && env[c.keyEnv] != "" && ValidateKeyFormat(Some(c.provider), env[c.keyEnv]) ==> r
  {
    match Lookup(Models, modelId)
    case None => false
    case Some(config) =>
      var apiKey := Getenv(env, config.keyEnv);
      IsSet(apiKey) && ValidateKeyFormat(Some(config.provider), apiKey.value)
  }

  /**
   * `verify_api_key(model_id)`: presence, then format, then the live probe;
   * every failure is reported in the verdict, none is raised.
   */
  function VerifyApiKey(env: Env, modelId: string, probe: Probe): (v: Verdict)
    ensures v.ok <==> CheckApiKey(env, modelId) && ProbeConfirms(probe)
    ensures Lookup(Models, modelId).None? ==>
              v == Verdict(false, "❌ API key verification process error: " + KeyErrorText(modelId))
    ensures Lookup(Models, modelId).Some? && !IsSet(Getenv(env, Lookup(Models, modelId).value.keyEnv)) ==>
              v == Verdict(false, "No API key found")
    ensures Lookup(Models, modelId).Some? && IsSet(Getenv(env, Lookup(Models, modelId).value.keyEnv))
            && !CheckApiKey(env, modelId) ==>
              v == Verdict(false, "❌ Invalid " + Lookup(Models, modelId).value.provider + " API key format")
  {
    match Lookup(Models, modelId)
    case None => Verdict(false, "❌ API key verification process error: " + KeyErrorText(modelId))
    case Some(config) =>
      var apiKey := Getenv(env, config.keyEnv);
      if !IsSet(apiKey) then Verdict(false, "No API key found")
      else if !ValidateKeyFormat(Some(config.provider), apiKey.value) then
        Verdict(false, "❌ Invalid " + config.provider + " API key format")
      else match probe
        case ClientInitFailed(e) => Verdict(false, "❌ Error initializing LLM: " + e)
        case RequestFailed(e) => Verdict(false, "❌ API key verification failed: " + e)
        case Replied(content) =>
          if Contains(content, "OK") then Verdict(true, "✅ API key verified successfully")
          else Verdict(false, "❌ API key verification failed: Unexpected response")
  }

  /** A missing or malformed key is rejected without consulting the probe at all. */
  lemma VerifyFailsFastWithoutProbe(env: Env, modelId: string, p: Probe, q: Probe)
    requires !CheckApiKey(env, modelId)
    ensures VerifyApiKey(env, modelId, p) == VerifyApiKey(env, modelId, q)
    ensures !VerifyApiKey(env, modelId, p).ok
  {
  }

  /** The substring test also accepts a longer reply that merely contains "OK". */
  lemma ProbeAcceptsAnyReplyContainingOK()
    ensures ProbeConfirms(Replied("NOT OK"))
  {
    assert OccursAt("NOT OK", "OK", 4);
  }

  /** The model behind a menu number is the registry entry carrying it. */
  lemma LookupModelsAt(i: int)
    requires 0 <= i < |Models|
    ensures Lookup(Models, Models[i].id) == Some(Models[i].config)
  {
    ModelsWellFormed();
    var c := Lookup(Models, Models[i].id).value;
    var k :| 0 <= k < |Models| && Models[k] == Entry(Models[i].id, c);
    assert k == i;
  }

  /** A model whose key variable is unset or empty fails verification, whatever the probe. */
  lemma UnsetKeyFailsVerification(env: Env, i: int, p: Probe)
    requires 0 <= i < |Models|
    requires !IsSet(Getenv(env, Models[i].config.keyEnv))
    ensures !VerifyApiKey(env, Models[i].id, p).ok
  {
    LookupModelsAt(i);
  }

  /**
   * `list_models()`: the status table. Each model with a set key is
   * verified with its own probe `probes(id)`; a model without one is false.
   * The table agrees with `verify_api_key` for every model, so it never
   * marks usable a model whose key `check_api_key` rejects.
   */
  method ListModels(store: Store, probes: string -> Probe) returns (statuses: map<string, bool>)
    ensures forall i :: 0 <= i < |Models| ==> Models[i].id in statuses
    ensures forall id :: id in statuses ==> Lookup(Models, id).Some?
    ensures forall id :: id in statuses ==> statuses[id] == VerifyApiKey(store.env, id, probes(id)).ok
    ensures forall id :: id in statuses && statuses[id] ==> CheckApiKey(store.env, id)
  {
    statuses := map[];
    var i := 0;
    while i < |Models|
      invariant 0 <= i <= |Models|
      invariant forall j :: 0 <= j < i ==> Models[j].id in statuses
      invariant forall id :: id in statuses ==> Lookup(Models, id).Some?
      invariant forall id :: id in statuses ==> statuses[id] == VerifyApiKey(store.env, id, probes(id)).ok
    {
      var entry := Models[i];
      LookupModelsAt(i);
      if IsSet(Getenv(store.env, entry.config.keyEnv)) {
        var verdict := VerifyApiKey(store.env, entry.id, probes(entry.id));
        statuses := statuses[entry.id := verdict.ok];
      } else {
        UnsetKeyFailsVerification(store.env, i, probes(entry.id));
        statuses := statuses[entry.id := false];
      }
      i := i + 1;
    }
  }

  /** What "Add/Update API Key" reports. */
  datatype UpdateOutcome =
    | InvalidSelection              // the model number is not in the table
    | NoChange                      // the operator entered nothing
    | InvalidFormat(provider: string)
    | WriteFailed                   // `_update_env_safely` returned False
    | Committed(message: string)    // verified: the new key stays
    | RolledBack(message: string)   // verification failed: reverted

  datatype Update = Update(outcome: UpdateOutcome, env: Env)

  /**
   * The effect of `add_update_api_key` for the model number `modelId` and
   * the typed line `typedKey`. `writeSucceeds` and `revertSucceeds` are the
   * outcomes of the two writes, `probe` that of the verification request.
   */
  function AddUpdate(env: Env, modelId: string, typedKey: string, writeSucceeds: bool,
                     probe: Probe, revertSucceeds: bool): (u: Update)
    ensures u.outcome == InvalidSelection <==> Lookup(Models, modelId).None?
    ensures !u.outcome.Committed? && !u.outcome.RolledBack? ==> u.env == env
    ensures u.outcome.Committed? ==> CheckApiKey(u.env, modelId)
  {
    match Lookup(Models, modelId)
    case None => Update(InvalidSelection, env)
    case Some(model) =>
      var newKey := Strip(typedKey);
      if newKey == "" then Update(NoChange, env)
      else if !ValidateKeyFormat(Some(model.provider), newKey) then Update(InvalidFormat(model.provider), env)
      else if !writeSucceeds then Update(WriteFailed, env)
      else
        var written := env[model.keyEnv := Strip(newKey)];
        var verdict := VerifyApiKey(written, modelId, probe);
        if verdict.ok then Update(Committed(verdict.message), written)
        else
          var restored := Strip(RevertTarget(model.keyEnv, Getenv(env, model.keyEnv)));
          Update(RolledBack(verdict.message), if revertSucceeds then written[model.keyEnv := restored] else written)
  }

  /** Only the selected model's key variable can change; an unknown model changes nothing. */
  lemma AddUpdateTouchesOnlyItsKey(env: Env, modelId: string, typedKey: string, writeSucceeds: bool,
                                   probe: Probe, revertSucceeds: bool)
    ensures var u := AddUpdate(env, modelId, typedKey, writeSucceeds, probe, revertSucceeds);
            && (Lookup(Models, modelId).None? ==> u.env == env)
            && (Lookup(Models, modelId).Some? ==>
                  var k := Lookup(Models, modelId).value.keyEnv;
                  u.env.Keys <= env.Keys + {k} && forall name :: name in env && name != k ==> u.env[name] == env[name])
  {
    var u := AddUpdate(env, modelId, typedKey, writeSucceeds, probe, revertSucceeds);
    if Lookup(Models, modelId).Some? {
      var k := Lookup(Models, modelId).value.keyEnv;
      var written := env[k := Strip(Strip(typedKey))];
      var restored := Strip(RevertTarget(k, Getenv(env, k)));
      assert u.env in {env, written, written[k := restored]};
    }
  }

  /** An empty entry, or one that fails the format check, is rejected before any write. */
  lemma AddUpdateRejectsBeforeWriting(env: Env, modelId: string, typedKey: string, writeSucceeds: bool,
                                      probe: Probe, revertSucceeds: bool)
    requires Lookup(Models, modelId).Some?
    ensures var model := Lookup(Models, modelId).value;
            var u := AddUpdate(env, modelId, typedKey, writeSucceeds, probe, revertSucceeds);
            && (Strip(typedKey) == "" ==> u == Update(NoChange, env))
            && (Strip(typedKey) != "" && !ValidateKeyFormat(Some(model.provider), Strip(typedKey)) ==>
                  u == Update(InvalidFormat(model.provider), env))
  {
  }

  /**
   * Once a format-valid key has been written, the verification that follows
   * depends on the probe alone: the stored value is the typed key, stripped.
   */
  lemma VerifyAfterWrite(env: Env, modelId: string, typedKey: string, probe: Probe)
    requires Lookup(Models, modelId).Some?
    requires ValidateKeyFormat(Some(Lookup(Models, modelId).value.provider), Strip(typedKey))
    ensures var k := Lookup(Models, modelId).value.keyEnv;
            VerifyApiKey(env[k := Strip(Strip(typedKey))], modelId, probe).ok == ProbeConfirms(probe)
  {
    StripIdempotent(typedKey);
  }

  /** A format-valid key whose write fails is reported as WriteFailed and changes nothing. */
  lemma AddUpdateWriteFailureChangesNothing(env: Env, modelId: string, typedKey: string, probe: Probe,
                                           revertSucceeds: bool)
    requires Lookup(Models, modelId).Some?
    requires ValidateKeyFormat(Some(Lookup(Models, modelId).value.provider), Strip(typedKey))
    ensures AddUpdate(env, modelId, typedKey, false, probe, revertSucceeds) == Update(WriteFailed, env)
  {
  }

  /** A written key that the probe confirms stays stored. */
  lemma AddUpdateCommits(env: Env, modelId: string, typedKey: string, probe: Probe, revertSucceeds: bool)
    requires Lookup(Models, modelId).Some?
    requires ValidateKeyFormat(Some(Lookup(Models, modelId).value.provider), Strip(typedKey))
    requires ProbeConfirms(probe)
    ensures var k := Lookup(Models, modelId).value.keyEnv;
            var u := AddUpdate(env, modelId, typedKey, true, probe, revertSucceeds);
            u.outcome.Committed? && u.env == env[k := Strip(typedKey)]
  {
    VerifyAfterWrite(env, modelId, typedKey, probe);
    StripIdempotent(typedKey);
  }

  /**
   * The value a rollback leaves for a model of provider `provider`: the old
   * key, stripped, when it was set and format-valid, and "" otherwise. So a
   * rejected non-empty key survives a rollback only as the old valid key.
   */
  function RollbackValue(provider: string, oldKey: Option<string>): (r: string)
    ensures r != "" ==> IsSet(oldKey) && ValidateKeyFormat(Some(provider), oldKey.value) && r == Strip(oldKey.value)
  {
    if IsSet(oldKey) && ValidateKeyFormat(Some(provider), oldKey.value) then Strip(oldKey.value) else ""
  }

  /** What `_revert_key_safely` writes for a model is its `RollbackValue`. */
  lemma {:induction false} RevertWritesRollbackValue(modelId: string, oldKey: Option<string>)
    requires Lookup(Models, modelId).Some?
    ensures var model := Lookup(Models, modelId).value;
            Strip(RevertTarget(model.keyEnv, oldKey)) == RollbackValue(model.provider, oldKey)
  {
    ModelsWellFormed();
    ProviderOfModelKey(Models, modelId);
    var model := Lookup(Models, modelId).value;
    if !(IsSet(oldKey) && ValidateKeyFormat(Some(model.provider), oldKey.value)) {
      assert RevertTarget(model.keyEnv, oldKey) == "";
    }
  }

  /**
   * A written key that the probe does not confirm is replaced by the
   * model's `RollbackValue` of the key stored before the update, and nothing
   * else in the store changes.
   */
  lemma AddUpdateRollsBack(env: Env, modelId: string, typedKey: string, probe: Probe)
    requires Lookup(Models, modelId).Some?
    requires ValidateKeyFormat(Some(Lookup(Models, modelId).value.provider), Strip(typedKey))
    requires !ProbeConfirms(probe)
    ensures var model := Lookup(Models, modelId).value;
            var u := AddUpdate(env, modelId, typedKey, true, probe, true);
            && u.outcome.RolledBack?
            && u.env == env[model.keyEnv := RollbackValue(model.provider, Getenv(env, model.keyEnv))]
  {
    var k := Lookup(Models, modelId).value.keyEnv;
    AddUpdateRevertedStore(env, modelId, typedKey, probe);
    RevertWritesRollbackValue(modelId, Getenv(env, k));
    OverwriteTwice(env, k, Strip(Strip(typedKey)), Strip(RevertTarget(k, Getenv(env, k))));
  }

  lemma OverwriteTwice(m: Env, k: string, a: string, b: string)
    ensures m[k := a][k := b] == m[k := b]
  {
  }

  /** The store after a failed verification and a successful revert, before simplification. */
  lemma AddUpdateRevertedStore(env: Env, modelId: string, typedKey: string, probe: Probe)
    requires Lookup(Models, modelId).Some?
    requires ValidateKeyFormat(Some(Lookup(Models, modelId).value.provider), Strip(typedKey))
    requires !ProbeConfirms(probe)
    ensures var k := Lookup(Models, modelId).value.keyEnv;
            var u := AddUpdate(env, modelId, typedKey, true, probe, true);
            && u.outcome.RolledBack?
            && u.env == env[k := Strip(Strip(typedKey))][k := Strip(RevertTarget(k, Getenv(env, k)))]
  {
    VerifyAfterWrite(env, modelId, typedKey, probe);
  }

  /** If the reverting write itself fails, the rejected key is left in the store. */
  lemma RevertWriteFailureKeepsRejectedKey(env: Env, modelId: string, typedKey: string, probe: Probe)
    requires Lookup(Models, modelId).Some?
    requires ValidateKeyFormat(Some(Lookup(Models, modelId).value.provider), Strip(typedKey))
    requires !ProbeConfirms(probe)
    ensures var k := Lookup(Models, modelId).value.keyEnv;
            var u := AddUpdate(env, modelId, typedKey, true, probe, false);
            u.outcome.RolledBack? && u.env == env[k := Strip(typedKey)]
  {
    VerifyAfterWrite(env, modelId, typedKey, probe);
    StripIdempotent(typedKey);
  }

  /** A stored valid Google key is restored when a new one fails verification. */
  lemma RollbackRestoresOldGoogleKey()
    ensures var env := map["GOOGLE_API_KEY" := "AIzaSy_old_valid"];
            AddUpdate(env, "1", "AIzaSy_new", true, RequestFailed("denied"), true).env == env
  {
    var env := map["GOOGLE_API_KEY" := "AIzaSy_old_valid"];
    assert Lookup(Models, "1") == Some(Models[0].config);
    assert StartsWith("AIzaSy_new", GooglePrefix);
    StripStripped("AIzaSy_new");
    StripStripped("AIzaSy_old_valid");
    AddUpdateRollsBack(env, "1", "AIzaSy_new", RequestFailed("denied"));
  }

  /**
   * `add_update_api_key()` with the operator's choices and the outcomes of
   * the writes and of the probe as parameters. It leaves the store as
   * `AddUpdate` says and reports the same outcome.
   */
  method AddUpdateApiKey(store: Store, modelId: string, typedKey: string, writeSucceeds: bool,
                         probe: Probe, revertSucceeds: bool) returns (outcome: UpdateOutcome)
    modifies store
    ensures Update(outcome, store.env) == AddUpdate(old(store.env), modelId, typedKey, writeSucceeds, probe, revertSucceeds)
  {
    var entry := Lookup(Models, modelId);
    if entry.None? {
      return InvalidSelection;
    }
    var model := entry.value;
    var currentKey := Getenv(store.env, model.keyEnv);
    var newKey := Strip(typedKey);
    if newKey == "" {
      return NoChange;
    }
    if !ValidateKeyFormat(Some(model.provider), newKey) {
      return InvalidFormat(model.provider);
    }
    var backup := currentKey;
    var written := store.UpdateEnvSafely(model.keyEnv, newKey, writeSucceeds);
    if !written {
      return WriteFailed;
    }
    var verdict := VerifyApiKey(store.env, modelId, probe);
    if !verdict.ok {
      store.RevertKeySafely(model.keyEnv, backup, revertSucceeds);
      outcome := RolledBack(verdict.message);
    } else {
      outcome := Committed(verdict.message);
    }
  }

  /** What "Remove API Key" reports. */
  datatype RemoveOutcome = NotAModel | NothingToRemove | Cancelled | Removed | RemoveFailed

  datatype Removal = Removal(outcome: RemoveOutcome, env: Env)

  /**
   * The operator's answer confirms removal: it reads "yes" once stripped and
   * lower-cased, that is, "yes" in any mix of cases with any padding.
   */
  function Confirms(answer: string): (r: bool)
    ensures var t := Strip(answer);
            r <==> |t| == 3 && (t[0] == 'y' || t[0] == 'Y') && (t[1] == 'e' || t[1] == 'E') && (t[2] == 's' || t[2] == 'S')
  {
    var t := Strip(answer);
    assert Lower(t) == "yes" <==> |Lower(t)| == 3 && Lower(t)[0] == 'y' && Lower(t)[1] == 'e' && Lower(t)[2] == 's';
    Lower(t) == "yes"
  }

  /** The effect of `remove_api_key` for model `modelId` and the confirmation line `answer`. */
  function RemoveApiKey(env: Env, modelId: string, answer: string, writeSucceeds: bool): (r: Removal)
    ensures r.outcome == NotAModel <==> Lookup(Models, modelId).None?
    ensures r.outcome != Removed ==> r.env == env
    ensures r.outcome == Removed ==>
              && Getenv(r.env, Lookup(Models, modelId).value.keyEnv) == Some("")
              && !CheckApiKey(r.env, modelId)
  {
    match Lookup(Models, modelId)
    case None => Removal(NotAModel, env)
    case Some(model) =>
      if !IsSet(Getenv(env, model.keyEnv)) then Removal(NothingToRemove, env)
      else if !Confirms(answer) then Removal(Cancelled, env)
      else if !writeSucceeds then Removal(RemoveFailed, env)
      else Removal(Removed, env[model.keyEnv := ""])
  }

  /**
   * Removal changes the store only after confirmation, and a confirmed
   * removal of a set key with a successful write always takes place: it
   * empties the model's key variable, which makes `check_api_key` false.
   */
  lemma RemoveNeedsConfirmation(env: Env, modelId: string, answer: string, writeSucceeds: bool)
    requires Lookup(Models, modelId).Some?
    ensures var k := Lookup(Models, modelId).value.keyEnv;
            var u := RemoveApiKey(env, modelId, answer, writeSucceeds);
            && (!Confirms(answer) || !writeSucceeds ==> u.env == env)
            && (u.env != env ==> u.outcome == Removed && u.env == env[k := ""] && !CheckApiKey(u.env, modelId))
            && (IsSet(Getenv(env, k)) && Confirms(answer) && writeSucceeds ==> u == Removal(Removed, env[k := ""]))
  {
  }

  /** `remove_api_key()` on the store, as `RemoveApiKey` says. */
  method RemoveApiKeyFromStore(store: Store, modelId: string, answer: string, writeSucceeds: bool)
    returns (outcome: RemoveOutcome)
    modifies store
    ensures Removal(outcome, store.env) == RemoveApiKey(old(store.env), modelId, answer, writeSucceeds)
  {
    var entry := Lookup(Models, modelId);
    if entry.None? {
      return NotAModel;
    }
    var model := entry.value;
    if !IsSet(Getenv(store.env, model.keyEnv)) {
      return NothingToRemove;
    }
    if !Confirms(answer) {
      return Cancelled;
    }
    var ok := store.UpdateEnvSafely(model.keyEnv, "", writeSucceeds);
    assert Strip("") == "";
    outcome := if ok then Removed else RemoveFailed;
  }

  /** The model and key a client is built from, or the `ValueError` text of `get_llm`. */
  datatype Resolved = Client(config: ModelConfig, apiKey: string) | ConfigError(message: string)

  /** `get_llm(model_id)` up to the client constructor: the same three checks as `check_api_key`. */
  function GetLlm(env: Env, modelId: string): (r: Resolved)
    ensures r.Client? <==> CheckApiKey(env, modelId)
    ensures r.Client? ==> Lookup(Models, modelId) == Some(r.config) && Getenv(env, r.config.keyEnv) == Some(r.apiKey)
  {
    match Lookup(Models, modelId)
    case None => ConfigError("Invalid model ID: " + modelId)
    case Some(config) =>
      var apiKey := Getenv(env, config.keyEnv);
      if !IsSet(apiKey) then ConfigError("No API key found for " + config.name)
      else if !ValidateKeyFormat(Some(config.provider), apiKey.value) then
        ConfigError("Invalid " + config.provider + " API key format")
      else Client(config, apiKey.value)
  }
}
