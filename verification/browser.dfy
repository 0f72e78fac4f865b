/**
 * The browser globals the front end touches: whether `window` (and with it
 * `localStorage` and `document`) exists, the `localStorage` entries, the class
 * list of the root element, the current location, and the colour-scheme
 * preference reported by `matchMedia('(prefers-color-scheme: dark)')`.
 */
module Globals {

  class Browser {
    /** `typeof window !== 'undefined'`; fixed for the lifetime of a page. */
    const hasWindow: bool
    /** `localStorage`, key by key. */
    var storage: map<string, string>
    /** `document.documentElement.classList`. */
    var rootClasses: set<string>
    /** `window.location.href`. */
    var location: string
    /** The system colour-scheme preference. */
    var prefersDark: bool

    constructor (hasWindow: bool, storage: map<string, string>, rootClasses: set<string>,
                 location: string, prefersDark: bool)
      ensures this.hasWindow == hasWindow && this.storage == storage
      ensures this.rootClasses == rootClasses && this.location == location
      ensures this.prefersDark == prefersDark
    {
      this.hasWindow := hasWindow;
      this.storage := storage;
      this.rootClasses := rootClasses;
      this.location := location;
      this.prefersDark := prefersDark;
    }
  }
}
