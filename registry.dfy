/**
 * The static model table of `LLMManager.MODELS`: one entry per selectable
 * model, each naming its provider and the environment variable holding its
 * API key. The client class of each entry is not part of this model.
 */
module Registry {
  import opened Wrappers

  datatype ModelConfig = ModelConfig(name: string, provider: string, model: string, keyEnv: string)

  /** A `MODELS` item: the menu number and its configuration, in dictionary order. */
  datatype Entry = Entry(id: string, config: ModelConfig)

  type Registry = seq<Entry>

  const Models: Registry := [
    Entry("1", ModelConfig("Gemini", "Google", "gemini-2.0-flash-exp", "GOOGLE_API_KEY")),
    Entry("2", ModelConfig("Claude", "Anthropic", "claude-3-opus-20240229", "ANTHROPIC_API_KEY")),
    Entry("3", ModelConfig("GPT-4", "OpenAI", "gpt-4", "OPENAI_API_KEY"))
  ]

  /** Dictionary keys are unique. */
  predicate UniqueIds(reg: Registry) {
    forall i, j :: 0 <= i < j < |reg| ==> reg[i].id != reg[j].id
  }

  /** No two models share an API-key variable. */
  predicate UniqueKeyEnvs(reg: Registry) {
    forall i, j :: 0 <= i < j < |reg| ==> reg[i].config.keyEnv != reg[j].config.keyEnv
  }

  lemma ModelsWellFormed()
    ensures UniqueIds(Models) && UniqueKeyEnvs(Models)
  {
  }

  /** `reg[id]`: the configuration stored under `id`, if any. */
  function Lookup(reg: Registry, id: string): (r: Option<ModelConfig>)
    ensures r.None? <==> forall i :: 0 <= i < |reg| ==> reg[i].id != id
    ensures r.Some? ==> exists i :: 0 <= i < |reg| && reg[i] == Entry(id, r.value)
  {
    if reg == [] then None
    else if reg[0].id == id then Some(reg[0].config)
    else
      var r := Lookup(reg[1..], id);
      assert forall i :: 1 <= i < |reg| ==> reg[i] == reg[1..][i - 1];
      r
  }

  /**
   * `_get_provider(key_env)`: the provider of the first model whose key
   * variable is `keyEnv`, or `None` when no model uses that variable.
   */
  function GetProvider(reg: Registry, keyEnv: string): (r: Option<string>)
    ensures r.None? <==> forall i :: 0 <= i < |reg| ==> reg[i].config.keyEnv != keyEnv
    ensures r.Some? ==> exists i :: 0 <= i < |reg| && reg[i].config.keyEnv == keyEnv
                                    && reg[i].config.provider == r.value
                                    && forall j :: 0 <= j < i ==> reg[j].config.keyEnv != keyEnv
  {
    if reg == [] then None
    else if reg[0].config.keyEnv == keyEnv then Some(reg[0].config.provider)
    else
      var r := GetProvider(reg[1..], keyEnv);
      FirstMatchInTail(reg, keyEnv, r);
      r
  }

  /** A first match in `reg[1..]` is a first match in `reg` when `reg[0]` does not match. */
  lemma FirstMatchInTail(reg: Registry, keyEnv: string, r: Option<string>)
    requires reg != [] && reg[0].config.keyEnv != keyEnv
    requires r.None? <==> forall i :: 0 <= i < |reg| - 1 ==> reg[1..][i].config.keyEnv != keyEnv
    requires r.Some? ==> exists i :: 0 <= i < |reg| - 1 && reg[1..][i].config.keyEnv == keyEnv
                                    && reg[1..][i].config.provider == r.value
                                    && forall j :: 0 <= j < i ==> reg[1..][j].config.keyEnv != keyEnv
    ensures r.None? <==> forall i :: 0 <= i < |reg| ==> reg[i].config.keyEnv != keyEnv
    ensures r.Some? ==> exists i :: 0 <= i < |reg| && reg[i].config.keyEnv == keyEnv
                                    && reg[i].config.provider == r.value
                                    && forall j :: 0 <= j < i ==> reg[j].config.keyEnv != keyEnv
  {
    assert forall i :: 1 <= i < |reg| ==> reg[i] == reg[1..][i - 1];
    if r.Some? {
      var i :| 0 <= i < |reg| - 1 && reg[1..][i].config.keyEnv == keyEnv
               && reg[1..][i].config.provider == r.value
               && forall j :: 0 <= j < i ==> reg[1..][j].config.keyEnv != keyEnv;
      assert reg[i + 1] == reg[1..][i];
      forall j | 0 <= j < i + 1 ensures reg[j].config.keyEnv != keyEnv {
        if j > 0 { assert reg[j] == reg[1..][j - 1]; }
      }
    }
  }

  /**
   * With unique key variables, the provider found through a model's key
   * variable is that model's own provider: what `_revert_key_safely`
   * validates against is the provider `add_update_api_key` validated.
   */
  lemma {:induction false} ProviderOfModelKey(reg: Registry, id: string)
    requires UniqueKeyEnvs(reg)
    requires Lookup(reg, id).Some?
    ensures GetProvider(reg, Lookup(reg, id).value.keyEnv) == Some(Lookup(reg, id).value.provider)
  {
    var c := Lookup(reg, id).value;
    var i :| 0 <= i < |reg| && reg[i] == Entry(id, c);
    var r := GetProvider(reg, c.keyEnv);
    var k :| 0 <= k < |reg| && reg[k].config.keyEnv == c.keyEnv && reg[k].config.provider == r.value
             && forall j :: 0 <= j < k ==> reg[j].config.keyEnv != c.keyEnv;
    assert k == i;
  }
}
