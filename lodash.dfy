/** The `empty` mixin the plugin adds to lodash. */
module Lodash {
  import opened JsObjects

  /**
   * Deletes every property of `target` in place and hands back the same
   * object. Whoever else holds a reference to it sees it empty afterwards;
   * applied to an empty object it changes nothing.
   */
  method Empty<V>(target: Dict<V>) returns (r: Dict<V>)
    modifies target
    ensures r == target
    ensures target.entries == map[]
    ensures old(target.entries) == map[] ==> target.entries == old(target.entries)
  {
    // `for (let property in object)` enumerates the keys present when it starts
    var pending := target.entries.Keys;
    while pending != {}
      invariant target.entries.Keys == pending
      decreases pending
    {
      var property :| property in pending;
      target.Delete(property);
      pending := pending - {property};
    }
    r := target;
  }
}
