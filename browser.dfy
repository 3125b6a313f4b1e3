/**
 * The browser services the front-end touches: `localStorage` as a plain map
 * from key to value, and the page location that a hard redirect reassigns.
 */
module Browser {
  import opened Types

  class Window {
    var storage: map<string, string>
    var href: string

    constructor (storage: map<string, string>, href: string)
      ensures this.storage == storage && this.href == href
    {
      this.storage := storage;
      this.href := href;
    }
  }

  /** `localStorage.getItem(key)` as a condition: present only when stored and non-empty. */
  function Stored(storage: map<string, string>, key: string): (r: Option<string>)
    ensures r.Some? <==> key in storage && storage[key] != ""
    ensures r.Some? ==> r.value == storage[key]
  {
    if key in storage && storage[key] != "" then Some(storage[key]) else None
  }
}
