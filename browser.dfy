/**
 * The parts of the page environment the theme code reads and writes:
 * `localStorage`, the class list of `document.body`, and the system
 * `prefers-color-scheme: dark` preference.
 */
module BrowserState {
  import opened Wrappers

  /** `localStorage.getItem(key)`: `None` stands for `null`. */
  function GetItem(storage: map<string, string>, key: string): (r: Option<string>)
    ensures r.Some? <==> key in storage
    ensures r.Some? ==> r.value == storage[key]
  {
    if key in storage then Some(storage[key]) else None
  }

  /** One browser window, shared by every component that touches it. */
  class Browser {
    var storage: map<string, string>
    var bodyClasses: set<string>
    const prefersDark: bool

    constructor (storage: map<string, string>, bodyClasses: set<string>, prefersDark: bool)
      ensures this.storage == storage && this.bodyClasses == bodyClasses && this.prefersDark == prefersDark
    {
      this.storage := storage;
      this.bodyClasses := bodyClasses;
      this.prefersDark := prefersDark;
    }
  }
}
