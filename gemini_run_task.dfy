/**
 * The module-level `run_task` of gemini-1.5-flash-8b.py: it takes the
 * browser and context of the previous task (or none), creates whichever
 * is missing, runs one task and hands the pair back for the next task; on
 * any error it closes what it holds and hands back no pair at all.
 */
module GeminiTasks {
  import opened Wrappers
  import opened Handles
  import opened GeminiKeys

  /**
   * `run_task(task, browser_instance, browser_context)`. The key comes from
   * `get_key("1")` with `envValue` as the `GOOGLE_API_KEY` variable.
   * `browserFails` and `contextFails` say whether `Browser()` and
   * `new_context()` raise, `runFails` whether building the client or
   * running the agent raises.
   */
  method RunTask(manager: APIManager, envValue: Option<string>, task: string,
                 browser: Browser?, context: BrowserContext?,
                 browserFails: bool, contextFails: bool, runFails: bool)
    returns (browser': Browser?, context': BrowserContext?)
    modifies manager
    ensures manager.file == if EnvOverrides(envValue) then old(manager.file) else EnsuredFile(old(manager.file))
    ensures var key := KeyLookup(ModelNum, envValue, LoadedKeys(old(manager.file)));
            && (key.None? ==> browser' == browser && context' == context)
            && (key.Some? && ((browser == null && browserFails) || (context == null && contextFails) || runFails) ==>
                  browser' == null && context' == null)
            && (key.Some? && !((browser == null && browserFails) || (context == null && contextFails) || runFails) ==>
                  && browser' != null && context' != null
                  && (browser != null ==> browser' == browser)
                  && (browser == null ==> fresh(browser'))
                  && (context != null ==> context' == context)
                  && (context == null ==> fresh(context') && context'.browser == browser'))
  {
    var apiKey := manager.GetKey(ModelNum, envValue);
    if apiKey.None? {
      return browser, context;
    }
    browser', context' := browser, context;
    if browser' == null {
      if browserFails {
        return null, null;
      }
      browser' := new Browser();
    }
    if context' == null {
      if contextFails {
        return null, null;
      }
      context' := browser'.NewContext();
    }
    if runFails {
      return null, null;
    }
  }

  /**
   * Two tasks in a row, the second given what the first returned: after a
   * successful first task the second reuses both handles.
   */
  method RunTwoTasks(manager: APIManager, envValue: Option<string>, first: string, second: string)
    returns (b1: Browser?, c1: BrowserContext?, b2: Browser?, c2: BrowserContext?)
    requires KeyLookup(ModelNum, envValue, LoadedKeys(manager.file)).Some?
    modifies manager
    ensures b1 != null && c1 != null && fresh(b1) && fresh(c1) && c1.browser == b1
    ensures b2 == b1 && c2 == c1
  {
    b1, c1 := RunTask(manager, envValue, first, null, null, false, false, false);
    assert LoadedKeys(manager.file) == LoadedKeys(old(manager.file));
    b2, c2 := RunTask(manager, envValue, second, b1, c1, false, false, false);
  }
}
