/**
 * The two automation resources, seen as opaque objects: a browser instance
 * (`Browser()`) and an execution context opened on it
 * (`browser.new_context()`). Their behaviour belongs to the automation
 * library and is not modelled; only their identity matters here.
 */
module Handles {

  class Browser {
    constructor ()
    {
    }

    /** `new_context()`: a fresh context bound to this browser. */
    method NewContext() returns (c: BrowserContext)
      ensures fresh(c) && c.browser == this
    {
      c := new BrowserContext(this);
    }
  }

  class BrowserContext {
    /** The browser the context was opened on. */
    const browser: Browser

    constructor (b: Browser)
      ensures browser == b
    {
      browser := b;
    }
  }
}
