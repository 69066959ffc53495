# Credential manager and browser session of browser-use-terminal-ui, in Dafny

This project models the core of a terminal front end that runs browser
automation tasks through one of several LLM providers. Two variants of the
program are modelled:

- **main.py** (multi-provider). `LLMManager` keeps one API key per provider
  in a dotenv file that is mirrored into the process environment. It checks
  each key's format per provider and verifies a key live with one probe
  request. An "add/update" is a small transaction: validate, snapshot the
  old key, write, verify, then commit, or revert to the old key if that was
  valid and clear it otherwise. `BrowserAutomation` owns one browser and one
  context. It creates them lazily (`initialize`), reuses them for every task
  (`run_task`) and releases them in `cleanup`.
- **gemini-1.5-flash-8b.py** (single provider). `APIManager` keeps the key
  in a JSON file, and the `GOOGLE_API_KEY` variable takes precedence over
  it. The module-level `run_task` threads the browser/context pair from one
  task to the next.

Modules, leaf first:

| file | module | models |
|---|---|---|
| wrappers.dfy | `Wrappers` | `Option`, for Python's `None` |
| strings.dfy | `Strings` | `str.strip`, `startswith`, `isalnum`, `lower`, `in`, slicing |
| registry.dfy | `Registry` | the `MODELS` table, dictionary lookup, `_get_provider` |
| key_format.dfy | `KeyFormat` | `_validate_key_format`, `_mask_key` |
| secret_store.dfy | `SecretStore` | the dotenv file and its environment mirror, as one map, `_update_env_safely`, `_revert_key_safely` |
| llm_manager.dfy | `LLMManager` | `check_api_key`, `verify_api_key`, `list_models`, `add_update_api_key`, `remove_api_key`, `get_llm` |
| browser_handles.dfy | `Handles` | browser and context as opaque objects |
| browser_automation.dfy | `Automation` | `BrowserAutomation` |
| gemini_api_manager.dfy | `GeminiKeys` | `APIManager` of the single-provider variant |
| gemini_run_task.dfy | `GeminiTasks` | its `run_task` |

Things outside the program become parameters:

- Whether a file write, a constructor, a `close` call or the agent raises
  is a `bool` or `Option<string>` parameter.
- The verification request to the provider is a `Probe` value. It says
  that the client could not be built, or that the request raised, or it
  carries the reply text.
- The operator's typed answers are `string` parameters. The model number
  is passed as `modelId` after the source's `.strip()` (main.py:263, 306).
  The typed key and the removal confirmation are passed as typed, and the
  model strips them (and lower-cases the confirmation) as the source does.

## Model

| member | source | states |
|---|---|---|
| `Strings.Strip` | main.py:100 | `strip()` returns a string that neither starts nor ends with white space, under Python's own set of white-space code points. |
| `Strings.TrimStartDropsSpace` | gemini-1.5-flash-8b.py:94 | The left trim removes only a white-space prefix. |
| `Strings.TrimEndDropsSpace` | gemini-1.5-flash-8b.py:94 | The right trim removes only a white-space suffix. |
| `Strings.TrimStart` | main.py:100 | The left half of `strip()`: the result is no longer than the input and does not start with white space. With `TrimStartDropsSpace` it is the input minus its white-space prefix. |
| `Strings.TrimEnd` | main.py:100 | The right half of `strip()`: the result is no longer than the input and does not end with white space. With `TrimEndDropsSpace` it is the input minus its white-space suffix. |
| `Strings.StripIsPieceOfInput` | main.py:100 | The stripped string is a contiguous piece of the input with only white space around it. |
| `Strings.StripStripped` | main.py:273 | A string that is already stripped is left unchanged by `strip`. |
| `Strings.StripIdempotent` | main.py:273 | Stripping twice is stripping once. So the second `strip()` in `_update_env_safely` (main.py:100) changes nothing, and the value stored is the typed line stripped once (main.py:273). |
| `Strings.StripEmptyIffAllSpace` | gemini-1.5-flash-8b.py:97-98 | `strip()` gives "" exactly when the input is all white space. |
| `Strings.Contains` | main.py:166 | Python's `sub in s` holds exactly when `sub` occurs at some index of `s`. |
| `Strings.Lower` | main.py:314 | ASCII `lower()`: keeps the length and lower-cases each ASCII letter. |
| `Strings.SliceTo` | main.py:93 | `s[:j]` clamps `j` to the string, counting a negative `j` from the end. |
| `Strings.SliceFrom` | main.py:93 | `s[i:]` clamps `i` to the string, counting a negative `i` from the end. |
| `Registry.ModelsWellFormed` | main.py:51-73 | The `MODELS` table (`Registry.Models`: Gemini, Claude and GPT-4 under "1", "2", "3") has unique ids and unique key variables, so each key variable belongs to exactly one model. |
| `Registry.Lookup` | main.py:265-269 | A model id is found exactly when some table entry carries it, and the configuration returned is that entry's. |
| `Registry.GetProvider` | main.py:116-121 | Returns None exactly when no model uses the variable. Otherwise it returns the provider of the first model that does. |
| `Registry.ProviderOfModelKey` | main.py:108-121 | With unique key variables, the provider found from a model's key variable is that model's provider. |
| `KeyFormat.ValidateKeyFormat` | main.py:76-86 | False for an empty key and for an unknown or missing provider. Google: true iff the key starts with "AIzaSy". OpenAI: true iff it starts with "sk-". Anthropic: true iff it has exactly 40 characters, all alphanumeric. |
| `KeyFormat.OpenAIAndAnthropicFormatsDisjoint` | main.py:82-85 | No key passes both the OpenAI and the Anthropic check. |
| `KeyFormat.MaskKey` | main.py:89-93 | "Not set" exactly when the key is absent or empty, so a set key never shows as unset. |
| `KeyFormat.MaskKeyShape` | main.py:93 | A set key is shown as at most its first four and last four characters around "...". Shorter keys follow Python slice semantics. |
| `KeyFormat.MaskKeyLength` | main.py:93 | A key of eight or more characters masks to eleven characters: its first four, "...", its last four. |
| `KeyFormat.MaskedIsNeverNotSet` | main.py:91-93 | No non-empty key masks to the text "Not set". |
| `SecretStore.Getenv` | main.py:128 | `os.getenv` returns the stored value if the name is present, None otherwise. A value of "" counts as present. |
| `SecretStore.RevertTarget` | main.py:108-113 | The revert writes the old key iff it was set and is format-valid for the provider that `_get_provider` finds. Otherwise it writes "". |
| `SecretStore.RevertUnknownVariableClears` | main.py:110 | For a variable that no model uses, `_get_provider` gives None, so a revert always clears it. |
| `SecretStore.Store.UpdateEnvSafely` | main.py:96-105 | On success it stores `strip(new_key)` under the key (possibly ""), leaves every other variable alone and returns True. On failure nothing changes and it returns False. |
| `SecretStore.Store.RevertKeySafely` | main.py:108-113 | When the write succeeds, the key becomes `strip` of the revert target; otherwise nothing changes. The method discards the write's result, as main.py:110-113 does. |
| `LLMManager.CheckApiKey` | main.py:330-341 | True exactly when the id names a model whose key variable holds a non-empty key that is format-valid for that model's provider. An unknown id gives false. |
| `LLMManager.VerifyApiKey` | main.py:124-176 | The verdict is true iff `check_api_key` holds and the reply contains "OK". The failure messages follow the fixed order unknown id, missing key, bad format; replies and raised errors are reported, never raised. |
| `LLMManager.VerifyFailsFastWithoutProbe` | main.py:130-134 | A missing or malformed key gives the same failing verdict whatever the probe would have returned. |
| `LLMManager.ProbeAcceptsAnyReplyContainingOK` | main.py:166 | A longer reply such as "NOT OK" passes the probe, because the test is containment. |
| `LLMManager.UnsetKeyFailsVerification` | main.py:130-131 | A model whose key variable is unset or empty fails verification whatever the probe, so the status table's `False` for it is `verify_api_key`'s own answer. |
| `LLMManager.ListModels` | main.py:214-235 | The status map has an entry for every model and only for models. Each entry equals the verdict of `verify_api_key` with that model's probe, so a usable status implies `check_api_key`. |
| `LLMManager.AddUpdateTouchesOnlyItsKey` | main.py:265-300 | An update changes at most the selected model's key variable; an unknown model changes nothing. |
| `LLMManager.AddUpdateRejectsBeforeWriting` | main.py:275-278 | An empty entry leaves the store unchanged. A format-invalid one leaves it unchanged and reports the provider. |
| `LLMManager.VerifyAfterWrite` | main.py:283-285 | After a valid key is written, the verification result depends only on the probe. |
| `LLMManager.AddUpdateWriteFailureChangesNothing` | main.py:283-294 | A format-valid key whose write fails (`_update_env_safely` returns False) is reported as WriteFailed, and the store is unchanged. |
| `LLMManager.AddUpdateCommits` | main.py:288-292 | When the write succeeds and the probe confirms, the outcome is Committed and the new key, stripped, stays stored. |
| `LLMManager.RollbackValue` | main.py:108-113 | A non-empty rollback value is the stripped old key, and the old key was set and format-valid. |
| `LLMManager.RevertWritesRollbackValue` | main.py:110-121 | For a registered model, what `_revert_key_safely` writes is that model's rollback value. |
| `LLMManager.AddUpdateRollsBack` | main.py:288-290 | When the probe fails and the revert write succeeds, the key becomes the rollback value of the pre-update key and nothing else changes. The rejected key therefore stays only if it equals the old valid key. |
| `LLMManager.RevertWriteFailureKeepsRejectedKey` | main.py:290 | If the reverting write itself fails, the rejected key is left stored. |
| `LLMManager.RollbackRestoresOldGoogleKey` | main.py:281-290 | With GOOGLE_API_KEY holding "AIzaSy_old_valid", a rejected "AIzaSy_new" leaves the store exactly as it was. |
| `LLMManager.AddUpdate` | main.py:260-300 | The effect of `add_update_api_key`. The outcome is InvalidSelection exactly for an unknown model. Every outcome that is not Committed or RolledBack leaves the store unchanged. A Committed key passes `check_api_key`. |
| `LLMManager.AddUpdateApiKey` | main.py:260-300 | The imperative `add_update_api_key` leaves the store and reports the outcome as `AddUpdate` defines. |
| `LLMManager.Confirms` | main.py:314-315 | The answer confirms exactly when, once stripped, it is "yes" in any mix of upper and lower case. |
| `LLMManager.RemoveApiKey` | main.py:303-327 | The effect of `remove_api_key`. It reports NotAModel exactly for an unknown model. Every outcome except Removed leaves the store unchanged. Removed leaves the key variable holding "", so `check_api_key` is false. |
| `LLMManager.RemoveNeedsConfirmation` | main.py:313-319 | The store changes only on a confirmed, successful write. Conversely, a set key with a confirming answer and a successful write is always Removed and its variable becomes "". Then `check_api_key` is false. |
| `LLMManager.RemoveApiKeyFromStore` | main.py:303-327 | The imperative `remove_api_key` leaves the store and reports the outcome as `RemoveApiKey` defines. |
| `LLMManager.GetLlm` | main.py:179-191 | A client configuration is produced iff `check_api_key` holds, and it carries the stored key of the selected model. |
| `Handles.Browser.NewContext` | main.py:358 | A new context is fresh and bound to the browser it was opened on. |
| `Automation.JoinPath` | main.py:397 | The joined path starts with the directory and ends with the file name. |
| `Automation.BrowserAutomation.Initialize` | main.py:349-362 | With both handles set, nothing changes. Otherwise it creates only the missing handles and never replaces an existing one. On success both are set; a failure reports false. A browser created before a failing context is kept. |
| `Automation.BrowserAutomation.Cleanup` | main.py:364-374 | With no close errors both handles become null. A failing context close leaves both as they were. A failing browser close leaves the browser set. |
| `Automation.BrowserAutomation.RunTask` | main.py:376-405 | Succeeds iff initialisation, `get_llm`, the client and the agent all succeed. It then reports the completion message and the history file if present. A failed task never releases the session. |
| `Automation.InitializeTwice` | main.py:349-352 | On a fresh session the first `initialize` succeeds exactly when neither creation raises. A second call then keeps the handles the first created. |
| `GeminiKeys.EnsuredFile` | gemini-1.5-flash-8b.py:42-46 | A missing key file is created holding the empty JSON object `{}`. An existing file, valid or not, is left as it is. |
| `GeminiKeys.LoadedKeys` | gemini-1.5-flash-8b.py:48-55 | A missing file or malformed JSON loads as the empty map. |
| `GeminiKeys.KeyLookup` | gemini-1.5-flash-8b.py:90-98 | None for any model number but "1". A non-blank environment value wins, stripped. The result is never empty or padded. |
| `GeminiKeys.EnvironmentTakesPrecedence` | gemini-1.5-flash-8b.py:93-95 | When the environment overrides, the file's contents do not affect the answer. |
| `GeminiKeys.StoredKeyReadsBackStripped` | gemini-1.5-flash-8b.py:64-98 | With no override, a key stored under "1" reads back as `strip(k)`, or None when it is all white space. |
| `GeminiKeys.RemovedKeyReadsBackNone` | gemini-1.5-flash-8b.py:76-98 | With no override, once the entry is deleted `get_key` gives None. |
| `GeminiKeys.StatusMark` | gemini-1.5-flash-8b.py:105-106 | The mark is ✅ exactly when `get_key("1")` returned a key, ❌ otherwise. |
| `GeminiKeys.APIManager.EnsureKeyFile` | gemini-1.5-flash-8b.py:42-46 | The file becomes `EnsuredFile` of what it was. |
| `GeminiKeys.APIManager.LoadKeys` | gemini-1.5-flash-8b.py:48-55 | Returns the stored keys, or the empty map for a missing or malformed file. A missing file is created. |
| `GeminiKeys.APIManager.SaveKeys` | gemini-1.5-flash-8b.py:57-61 | On success the file holds exactly the given keys. |
| `GeminiKeys.APIManager.AddKey` | gemini-1.5-flash-8b.py:64-73 | Returns false without touching the file when the number is not "1" or the key is empty. Otherwise it stores the key unstripped under "1", keeps all other entries, and reports the save. |
| `GeminiKeys.APIManager.RemoveKey` | gemini-1.5-flash-8b.py:76-87 | Returns false for another number or a missing entry, leaving the entries unchanged. Otherwise it deletes exactly that entry and reports the save. |
| `GeminiKeys.APIManager.GetKey` | gemini-1.5-flash-8b.py:90-98 | Returns `KeyLookup` of the loaded keys. The file is read, and created when missing, only when the environment does not override. |
| `GeminiKeys.AddThenGet` | gemini-1.5-flash-8b.py:64-98 | A non-empty key is added successfully when the save succeeds. Read back with the variable unset, it comes back stripped, or as None if it is all white space. |
| `GeminiTasks.RunTask` | gemini-1.5-flash-8b.py:179-214 | With no key, the pair comes back unchanged and nothing is created. Otherwise only the missing handles are created and the pair comes back set. Any error returns `(None, None)`. |
| `GeminiTasks.RunTwoTasks` | gemini-1.5-flash-8b.py:252-256 | With a key available, from the environment or from the key file, the first task creates a fresh browser and a context bound to it. The second task, given that pair, returns the same two handles. |

## Failure behaviour of the code

The model follows the code where it is less careful than its docstrings
suggest:

- **Initialisation failure.** `initialize` keeps the browser it created
  when `new_context` then raises (main.py:354-362), so a failed call can
  leave a browser without a context. `Automation.BrowserAutomation.Initialize`
  states this.
- **Initialisation lock.** `initialize` holds a `threading.Lock` across
  `await self.browser.new_context()` (main.py:350-358). Suppose a second
  coroutine on the same event loop calls `initialize` while the first is
  suspended. It blocks in `acquire()` and holds the loop thread, which the
  first coroutine needs in order to resume and release the lock: a
  permanent deadlock. The lock is not modelled; see Left out.
- **Teardown.** `cleanup` closes both handles inside one `try`
  (main.py:365-374). If the context fails to close, the browser is not
  closed and both handles stay set. If the browser fails to close, it stays
  set.
- **Rollback.** `_revert_key_safely` ("Safely revert to previous key with
  validation", main.py:109) ignores the result of `_update_env_safely`
  (main.py:110-113). So a rejected key is removed only if the reverting
  write succeeds. `LLMManager.RevertWriteFailureKeepsRejectedKey` proves
  that a failed revert write leaves the rejected key in place.

## Left out

- LLM client construction and `ainvoke` (main.py:137-172, 193-211): network
  and foreign SDKs. The probe reply or error is a `Probe` parameter, and a
  client-constructor failure in `get_llm` is a parameter of `RunTask`.
- `str(response.content)` for non-text content: the reply is taken to be
  text already.
- `FileLock` and `threading.Lock` (main.py:49, 98, 347, 350): mutual
  exclusion is not modelled. Each store write and each `initialize` is one
  atomic step.
- The dotenv text format: `find_dotenv`, `load_dotenv`, `set_key` and the
  `.env` creation at start-up (main.py:30-41) are left out. The file and the
  environment are one map, so a variable set only in the original
  environment is not distinguished from one in the file.
- `SecretStore.Store.UpdateEnvSafely` and `LLMManager.AddUpdateTouchesOnlyItsKey`:
  "every other variable is unchanged" holds only if the process environment
  and the dotenv file agree. `load_dotenv(dotenv_path, override=True)`
  (main.py:101) re-imports every variable of the file on each write. So a
  shell value that differs from the file's value of that variable is
  replaced by the file's value. The single map cannot express this.
- JSON file I/O of the single-provider variant: the file is a `KeyFile`
  value. A JSON document that is not an object, or holds non-string values,
  is not covered. Neither are errors from `os.makedirs`.
- `GeminiKeys.APIManager.SaveKeys`: a write that raises is taken to leave
  the file as `_ensure_key_file` left it. A file truncated by a failed
  `json.dump`, which later loads as malformed, is not modelled.
- `KeyFormat.ValidateKeyFormat`: the Anthropic check uses ASCII letters and
  digits. Python's `isalnum` also accepts non-ASCII letters and digits.
- `Strings.Lower`: lower-casing covers ASCII letters only, not Python's full
  Unicode `lower()`, which can change the length (`'İ'.lower()` has two
  characters). `LLMManager.Confirms` still agrees with Python on every
  input, because no other character lower-cases into 'y', 'e' or 's'.
- `LLMManager.VerifyApiKey`: for an unknown model id, the `KeyError` text in
  the message is modelled as the id in single quotes. Python's `repr` also
  switches to double quotes for ids containing a single quote. It also
  escapes backslashes and non-printable characters. None of that is
  modelled.
- Interactive menus: `main_menu` (both definitions, main.py:407 and 542),
  both `manage_api_keys`, `run_tasks`, `main_async` and `main`. They are
  `input`/`print` loops. The decisions they take are modelled through the
  operations they call, with the typed input as parameters.
- The `list_models` calls at the start of `add_update_api_key` and
  `remove_api_key` (main.py:262, 305): they only print and do not change the
  store. The table printing in `list_models` (main.py:228-233) is left out
  too. So is the status line printed by the single-provider `list_models`
  (gemini-1.5-flash-8b.py:107); only its status mark is modelled.
- `prompt_for_api_key` of the single-provider variant
  (gemini-1.5-flash-8b.py:126-149) probes the typed key over the network and
  then calls `add_key`, which is modelled. The probe is not.
- `test_api_key` of the single-provider variant
  (gemini-1.5-flash-8b.py:109-124) reads `get_key("1")`, which is modelled,
  and probes that key over the network, which is not. It never stores
  anything.
- `Agent` construction and `agent.run` (main.py:383-391,
  gemini-1.5-flash-8b.py:198-204): an external automation library. Only
  whether it raises is a parameter.
- The existence of `agent_history.gif` (main.py:397-399) is a parameter.
- Closing the browser and the context is an external call; only whether it
  raises is modelled. `GeminiTasks.RunTask` assumes that the `close` calls
  in its error handler (gemini-1.5-flash-8b.py:210-213) do not raise; if one
  does, the exception escapes `run_task`.
- file_upload.py and gradio_interface.py, the web front end with uploads
  and its key form, are not part of this model.
- Logging and printing.
