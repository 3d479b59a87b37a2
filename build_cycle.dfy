/**
 * One file going through the loader chain the plugin injects: the
 * pre-loader, the host's compiler, then the post-loader, all holding the
 * plugin's own `cache` and `page` objects.
 */
module BuildCycle {
  import opened JsObjects
  import opened SiteTree
  import opened Plugin
  import opened PreLoader
  import opened PostLoader

  /**
   * The page ends up holding the file's record as it was before compiling,
   * the compiler sees the text without its block, and the compiled output
   * lands on the record, which is the same object the site tree holds.
   */
  method CompileFile(plugin: FrontMatter, pre: PreLoaderEntry, post: PostLoaderEntry,
                     resourcePath: string, content: string, compile: string -> string)
    returns (output: string)
    requires plugin.Valid()
    requires pre == PreLoaderEntry(plugin.cache, plugin.page) && post == PostLoaderEntry(plugin.cache)
    modifies plugin.page
    modifies if resourcePath in plugin.cache.entries then {plugin.cache.entries[resourcePath]} else {}
    ensures plugin.Valid()
    ensures output == compile(Strip(content))
    ensures plugin.page.entries ==
      if resourcePath in plugin.cache.entries then old(plugin.cache.entries[resourcePath].fields) else map[]
    ensures resourcePath in plugin.cache.entries ==>
      && plugin.cache.entries[resourcePath].fields
         == old(plugin.cache.entries[resourcePath].fields)["content" := Str(output)]
      && plugin.cache.entries[resourcePath] in FilesAt(plugin.site, plugin.categorize(resourcePath))
  {
    ghost var fields0 := if resourcePath in plugin.cache.entries then plugin.cache.entries[resourcePath].fields else map[];
    var stripped := PreLoad(pre, resourcePath, content);
    assert plugin.page.entries == fields0;
    output := compile(stripped);
    output := PostLoad(post, resourcePath, output);
    assert plugin.page.entries == fields0;
  }
}
