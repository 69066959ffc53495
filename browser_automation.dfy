/**
 * `BrowserAutomation` in main.py: one browser and one context, created
 * lazily by `initialize`, reused by every task, and released by `cleanup`.
 * Whether a constructor, a `new_context` call, a `close` call, the client
 * constructor or the agent raises is given as a parameter.
 */
module Automation {
  import opened Wrappers
  import opened Handles
  import opened SecretStore
  import opened LLMManager

  /** The failures `run_task` re-raises, by the step that raised. */
  datatype TaskError =
    | InitError                       // `initialize` raised
    | ModelError(message: string)     // `get_llm` rejected the model or its key
    | ClientError(message: string)    // the client constructor raised
    | AgentError(message: string)     // `agent.run()` raised

  /** A finished task: what it put on the message queue and on the screenshot queue. */
  datatype TaskResult = TaskDone(messages: seq<string>, artifacts: seq<string>) | TaskFailed(error: TaskError)

  const CompletionMessage := "Task executed successfully"
  const HistoryFile := "agent_history.gif"

  /** `os.path.join(directory, name)` for a relative `name`. */
  function JoinPath(directory: string, name: string): (p: string)
    ensures |p| >= |name| && p[|p| - |name|..] == name
    ensures directory <= p
  {
    if directory == "" then name
    else if directory[|directory| - 1] == '/' then directory + name
    else directory + "/" + name
  }

  class BrowserAutomation {
    var browser: Browser?
    var context: BrowserContext?

    /** A context is only ever held together with the browser it was opened on. */
    predicate Valid()
      reads this
    {
      context != null ==> browser != null && context.browser == browser
    }

    /** Both handles are set: the session can run a task. */
    predicate Ready()
      reads this
    {
      browser != null && context != null
    }

    constructor ()
      ensures Valid() && browser == null && context == null
    {
      browser := null;
      context := null;
    }

    /**
     * `initialize()`: returns at once when both handles are set; otherwise
     * creates the browser if it is missing, then the context if it is
     * missing. `ok` is false when a creation raised; a browser created
     * before a failing `new_context` is kept.
     */
    method Initialize(browserFails: bool, contextFails: bool) returns (ok: bool)
      requires Valid()
      modifies this
      ensures Valid()
      ensures old(Ready()) ==> browser == old(browser) && context == old(context)
      ensures ok <==> (old(browser) != null || !browserFails) && (old(context) != null || !contextFails)
      ensures ok ==> Ready()
      ensures old(browser) != null ==> browser == old(browser)
      ensures old(browser) == null && !browserFails ==> browser != null && fresh(browser)
      ensures old(context) != null || !ok ==> context == old(context)
      ensures old(context) == null && ok ==> fresh(context)
      ensures old(browser) == null && browserFails ==> browser == null
    {
      if browser != null && context != null {
        return true;
      }
      if browser == null {
        if browserFails {
          return false;
        }
        browser := new Browser();
      }
      if context == null {
        if contextFails {
          return false;
        }
        context := browser.NewContext();
      }
      ok := true;
    }

    /**
     * `cleanup()`: closes the context and then the browser inside one `try`.
     * A context that fails to close stays set and the browser is then not
     * closed at all; a browser that fails to close stays set.
     */
    method Cleanup(contextCloseFails: bool, browserCloseFails: bool)
      requires Valid()
      modifies this
      ensures Valid()
      ensures old(context) != null && contextCloseFails ==> browser == old(browser) && context == old(context)
      ensures !(old(context) != null && contextCloseFails) ==>
                && context == null
                && browser == (if old(browser) != null && browserCloseFails then old(browser) else null)
    {
      if context != null {
        if contextCloseFails {
          return;
        }
        context := null;
      }
      if browser != null {
        if browserCloseFails {
          return;
        }
        browser := null;
      }
    }

    /**
     * `run_task(task, model_id, message_queue, screenshot_queue)`: makes
     * the session ready, resolves the model's client, runs the agent on the
     * session's browser and context, then reports completion and the
     * history file if it exists. A failure is returned, not swallowed, and
     * never tears the session down.
     */
    method RunTask(task: string, env: Env, modelId: string, browserFails: bool, contextFails: bool,
                   clientError: Option<string>, agentError: Option<string>,
                   hasMessageQueue: bool, hasScreenshotQueue: bool, cwd: string, historyExists: bool)
      returns (r: TaskResult)
      requires Valid()
      modifies this
      ensures Valid()
      ensures old(browser) != null ==> browser == old(browser)
      ensures old(context) != null ==> context == old(context)
      ensures (old(browser) != null || !browserFails) && (old(context) != null || !contextFails) ==> Ready()
      ensures r.TaskDone? <==>
                (&& (old(browser) != null || !browserFails)
                 && (old(context) != null || !contextFails)
                 && GetLlm(env, modelId).Client?
                 && clientError.None? && agentError.None?)
      ensures r.TaskDone? ==> CheckApiKey(env, modelId)
      ensures r.TaskDone? ==> r.messages == (if hasMessageQueue then [CompletionMessage] else [])
      ensures r.TaskDone? ==> r.artifacts == (if historyExists && hasScreenshotQueue then [JoinPath(cwd, HistoryFile)] else [])
    {
      var ready := Initialize(browserFails, contextFails);
      if !ready {
        return TaskFailed(InitError);
      }
      var llm := GetLlm(env, modelId);
      if llm.ConfigError? {
        return TaskFailed(ModelError(llm.message));
      }
      if clientError.Some? {
        return TaskFailed(ClientError(clientError.value));
      }
      if agentError.Some? {
        return TaskFailed(AgentError(agentError.value));
      }
      var messages := if hasMessageQueue then [CompletionMessage] else [];
      var artifacts := if historyExists && hasScreenshotQueue then [JoinPath(cwd, HistoryFile)] else [];
      r := TaskDone(messages, artifacts);
    }
  }

  /**
   * Calling `initialize` twice constructs the resources once: the second
   * call keeps the handles of the first.
   */
  method InitializeTwice(session: BrowserAutomation, browserFails: bool, contextFails: bool)
    returns (first: bool, b: Browser?, c: BrowserContext?)
    requires session.Valid() && session.browser == null && session.context == null
    modifies session
    ensures first <==> !browserFails && !contextFails
    ensures first ==> fresh(b) && fresh(c) && session.browser == b && session.context == c
  {
    first := session.Initialize(browserFails, contextFails);
    b, c := session.browser, session.context;
    var second := session.Initialize(browserFails, contextFails);
  }
}
