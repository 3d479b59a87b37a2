/** lib/postLoader.js: after a file is compiled, keep the compiled text on its cached record. */
module PostLoader {
  import opened JsObjects
  import opened Plugin

  /**
   * The post-loader: when a record is cached for `resourcePath`, set its
   * `content` property to the compiled text; hand the text on unchanged.
   */
  method PostLoad(options: PostLoaderEntry, resourcePath: string, content: string) returns (result: string)
    modifies if resourcePath in options.cache.entries then {options.cache.entries[resourcePath]} else {}
    ensures result == content
    ensures options.cache.entries == old(options.cache.entries)
    ensures resourcePath in options.cache.entries ==>
      options.cache.entries[resourcePath].fields == old(options.cache.entries[resourcePath].fields)["content" := Str(content)]
    ensures forall k ::
      (k in options.cache.entries &&
       (resourcePath !in options.cache.entries || options.cache.entries[k] != options.cache.entries[resourcePath]))
      ==> options.cache.entries[k].fields == old(options.cache.entries[k].fields)
  {
    if resourcePath in options.cache.entries {
      options.cache.entries[resourcePath].Set("content", Str(content));
    }
    result := content;
  }
}
