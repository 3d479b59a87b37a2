/**
 * lib/preLoader.js: before a file is compiled, refill the shared page context
 * with the file's cached record and cut the front-matter block off the text.
 */
module PreLoader {
  import opened JsObjects
  import opened Text
  import opened Lodash
  import opened FrontMatterText
  import opened Plugin

  /**
   * `content.substring(content.indexOf('---', 4) + 3)` when the text starts
   * with "---", the text itself otherwise. The cut is at the first "---"
   * found from index 4 on, wherever it is in a line; when there is none the
   * index is -1 and the text loses only its first two characters.
   */
  function Strip(content: string): (r: string)
    ensures !HasFrontMatter(content) ==> r == content
    ensures HasFrontMatter(content) && (forall i :: 4 <= i ==> !OccursAt(content, Delimiter, i)) ==>
      r == content[2..]
    ensures forall i ::
      (HasFrontMatter(content) && 4 <= i && OccursAt(content, Delimiter, i) &&
       (forall j :: 4 <= j < i ==> !OccursAt(content, Delimiter, j)))
      ==> r == content[i + 3..]
  {
    if Prefix(content, 3) == Delimiter then Suffix(content, IndexOf(content, Delimiter, 4) + 3)
    else content
  }

  /**
   * With the block closed by the first "---" after the opening line, what
   * follows that "---" is kept, the rest of its line included:
   * "---\ntitle: Hello\n---\nBody text" becomes "\nBody text". The "---"
   * need not stand on a line of its own: "---\na: x---y\n---\nBody" becomes
   * "y\n---\nBody", while `readFrontMatter` reads "a: x---y" into the block.
   */
  lemma StripAfterClosing(block: string, rest: string)
    requires forall i :: !OccursAt(block, Delimiter, i)
    requires block == "" || block[|block| - 1] != '-'
    ensures Strip("---\n" + block + Delimiter + rest) == rest
  {
    var content := "---\n" + block + Delimiter + rest;
    var k := 4 + |block|;
    assert content[..3] == Delimiter;
    assert content[k..k + 3] == Delimiter;
    assert HasFrontMatter(content) && OccursAt(content, Delimiter, k);
    forall j | 4 <= j < k ensures !OccursAt(content, Delimiter, j) {
      if j + 3 <= k {
        assert content[j..j + 3] == block[j - 4..j - 1];
        assert !OccursAt(block, Delimiter, j - 4);
      } else {
        assert content[j..j + 3][k - 1 - j] == block[|block| - 1];
      }
    }
    assert content[k + 3..] == rest;
  }

  /**
   * The pre-loader: empty the page in place, copy into it the properties of
   * the record cached for `resourcePath` (nothing when there is none), and
   * hand on the text without its front-matter block.
   */
  method PreLoad(options: PreLoaderEntry, resourcePath: string, content: string) returns (result: string)
    modifies options.page
    ensures options.page.entries ==
      if resourcePath in options.cache.entries then options.cache.entries[resourcePath].fields else map[]
    ensures result == Strip(content)
  {
    var _ := Empty(options.page);
    if resourcePath in options.cache.entries {
      options.page.Assign(options.cache.entries[resourcePath].fields);
    }
    result := content;
    if Prefix(content, 3) == Delimiter {
      result := Suffix(content, IndexOf(content, Delimiter, 4) + 3);
    }
  }
}
