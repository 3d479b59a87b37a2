# spike-front-matter, modelled in Dafny

spike-front-matter is a webpack plugin for the Spike static-site generator.
On each compilation it walks the project, reads the YAML front-matter block
at the top of every file that starts with `---`, and files the decoded record
in a site tree keyed by the file's directories. It also keeps the record in a
per-compilation cache keyed by the file's path. Two loaders share that cache
with the plugin:

- the pre-loader copies the record of the file being compiled into the
  shared `page` context and cuts the block off the text;
- the post-loader stores the compiled text on the record, as `content`.

The model covers:

- **JavaScript objects and built-ins** (`js_objects.dfy`, `text.dfy`). Plain
  objects used as dictionaries (`Dict`), the record objects (`Record`), the
  category array that `shift` consumes (`Segments`). `indexOf`, `substring`
  and `split` with their JavaScript semantics, POSIX `path.dirname`, and the
  line framing of Node's `readline`.
- **The `empty` mixin** (`lodash.dfy`). It deletes every property in place.
- **The site tree** (`site_tree.dfy`, `js_array_tree.dfy`).
  - A node is the value `Node(files, children, keys, hasAll)`: the records
    filed directly in the directory (the JavaScript array's elements), the
    sub-directories (the array's named properties), their creation order,
    and whether `all` has been attached.
  - `pushData` is specified by the function `Pushed`.
  - `all()` is a loop over the root's properties.
  - Below the top level every node is a JavaScript array, so a directory
    named like an element index (`2020`, `0`) addresses an element rather
    than a property. `JsArrayTree` models that case as written; the rest of
    the model files such directories only through `PlainPath` paths.
- **The front-matter text** (`front_matter_text.dfy`). The three-character
  test, the block `readFrontMatter` gathers line by line, and the category
  path of a file.
- **The plugin object** (`plugin.dfy`). Class `FrontMatter` with its `site`,
  `page`, `cache` and `root`. It models:
  - the constructor;
  - `apply`/`injectLoader`;
  - the compilation handler, down to what each filed record holds and which
    record each cached path holds;
  - the per-file body of `processFiles`;
  - `pushData` as a recursive method over the shared `Segments` object.
- **The loaders** (`pre_loader.dfy`, `post_loader.dfy`). They receive the
  option objects `injectLoader` creates, which hold the plugin's own `cache`
  and `page`.
- **One file through the chain** (`build_cycle.dfy`). Pre-loader, then the
  host's compiler, then post-loader, on the plugin's shared objects.

Records are objects, so reference identity is kept. The record in the cache
and the one in the tree are the same object, and the post-loader's write is
seen through both. The page is a separate object that receives a copy of the
record's properties.

The plugin's environment is passed in as parameters:

- the files the directory walk lists, each with its text and output URL;
- the YAML decoder, as a function from text to `Decoded`: nothing, a mapping,
  a scalar (whose file is rejected), or a syntax error (which stops the
  process);
- the host's compiler, as a function from text to text.

Where the code and its own doc comments disagree, the model follows the
code:

- **`all()`** (lib/index.js:97-106). The doc comment at lib/index.js:95
  promises every record below the node, "their children" included. The code
  concatenates array-valued properties and never looks inside an array it
  concatenated. Called on the root, it therefore returns only the records
  filed directly in top-level directories (`All`, `AllSkipsNested`).
- **The pre-loader's output.** The doc comment at lib/preLoader.js:4 says the
  front matter is removed from the content. For
  `"---\ntitle: Hello\n---\nBody text"` the pre-loader gives
  `"\nBody text"`: the newline after the closing `---` stays
  (`StripAfterClosing`).

`all` is attached to the root and to every node that received a record
(`PushedNodes`). A directory created on the way down, which holds no record
of its own, does not get it (`PushedIntermediate`).

## Model

| member | source | states |
|---|---|---|
| JsObjects.Dict.Set | lib/index.js:71 | `this.cache[file] = data` maps that key to the record and keeps every other entry |
| JsObjects.Dict.Delete | lib/lodash.js:10 | `delete object[property]` removes exactly that key and leaves every other one |
| JsObjects.Dict.Assign | lib/preLoader.js:11 | `_.extend` copies every property of the source onto the object, the source winning on clashes, and keeps the object's other properties |
| JsObjects.Record.Set | lib/postLoader.js:9 | a property write changes that property only |
| JsObjects.Segments.Shift | lib/index.js:88 | `shift` returns the first segment and removes it from the shared array; on an empty array it returns nothing and changes nothing |
| Lodash.Empty | lib/lodash.js:8-13 | afterwards the object has no properties; the very object passed in is returned; an already empty object is left as it was |
| Text.IndexFrom | lib/preLoader.js:14 | the result is -1 when `pat` occurs nowhere at or after `start`, otherwise the first index at or after `start` where it occurs |
| Text.IndexOf | lib/preLoader.js:14 | `indexOf(pat, from)` with `from` clamped to the length: the first occurrence at or after it, or -1 when there is none |
| Text.Suffix | lib/preLoader.js:14 | `substring(start)`: the suffix from `start`; the whole text for a negative start; empty past the end |
| Text.Prefix | lib/preLoader.js:13 | `substring(0, end)` is a prefix of the text, of length `end` clamped to the text's length |
| Text.Split | lib/index.js:66 | `split` always yields at least one part |
| Text.JoinSplit | lib/index.js:66 | joining the parts of `split` with the separator gives the original text back |
| Text.SplitJoin | lib/index.js:66 | splitting a join of separator-free parts gives the parts back |
| Text.SplitPartsFree | lib/index.js:66 | no part `split` yields contains the separator |
| Text.SplitFree | lib/index.js:66 | a text without the separator splits into itself alone |
| Text.SplitAround | lib/index.js:66 | splitting at a separator splits the two sides independently |
| Text.LastIndex | lib/index.js:66 | the last position of the separator, -1 exactly when there is none, and no separator after it |
| Text.Dirname | lib/index.js:66 | `path.dirname` of a relative path: everything before its last `/`, or "." when it has none |
| Text.LineEnd | lib/index.js:138-140 | the first line break of the text, or its end, with no break before it |
| Text.Lines | lib/index.js:138-140 | the `line` events of `readline`: lines end at "\r\n", "\n" or "\r", and a final unterminated line is emitted when it is not empty |
| Text.LinesCons | lib/index.js:138-140 | `readline` emits a "\n"-terminated line as it is, then the lines of the rest |
| Text.UnlinesAppend | lib/index.js:143 | appending `line + '\n'` for one more line extends the gathered block by exactly that |
| SiteTree.Pushed | lib/index.js:81-91 | the tree after `pushData`: one segment per level, a missing segment created as `[]` and appended to its parent's keys, and at the end of the path the record appended and `all` attached |
| SiteTree.PushedFilesAt | lib/index.js:81-91 | `pushData` appends the record as the last element of the node at the end of the path, keeps that node's earlier records, and changes the records of no other node |
| SiteTree.PushedNodes | lib/index.js:81-91 | a node exists at a path afterwards exactly when it existed before or the path is a prefix of the pushed path (a missing segment is created); the terminal node carries `all` |
| SiteTree.PushedIntermediate | lib/index.js:82-89 | a directory that `pushData` creates on the way down to the end of the path exists afterwards and does not carry `all` |
| SiteTree.PushedOffPath | lib/index.js:81-91 | every node whose path is not a prefix of the pushed path is the same as before, including the nodes below the terminal node |
| SiteTree.PushedWellFormed | lib/index.js:88-89 | pushing along names other than `all` keeps every node's children listed once, in creation order, and never creates an `all` child |
| SiteTree.NewArrayEmpty | lib/index.js:89 | a freshly created `[]` holds no records at any path |
| SiteTree.NewArrayNodes | lib/index.js:89 | a freshly created `[]` has no sub-directories |
| SiteTree.TopFilesHas | lib/index.js:97-106 | a record is gathered exactly when some listed top-level directory holds it directly |
| SiteTree.TopFilesSame | lib/index.js:97-106 | what is gathered depends only on the direct records of the listed directories |
| SiteTree.TopFilesAppend | lib/index.js:97-106 | appending a record to one listed directory adds exactly that record to what is gathered |
| SiteTree.All | lib/index.js:97-106 | `all()` on the root concatenates the direct records of the top-level directories in creation order; the `all` property adds nothing; a record is returned exactly when a top-level directory holds it directly |
| SiteTree.AllSkipsNested | lib/index.js:97-106 | filing a record two or more levels deep leaves what `all()` returns on the root unchanged |
| SiteTree.AllGainsTopLevel | lib/index.js:97-106 | filing a record in a top-level directory makes `all()` on the root return it besides everything it returned before, and nothing else |
| FrontMatterText.HasFrontMatter | lib/index.js:116-123 | true exactly when the text has at least three characters and the first three are `-`; shorter and empty files give false |
| FrontMatterText.FrontMatterLines | lib/index.js:138 | the lines `readline` emits for the file read from offset 3, past the opening `---` |
| FrontMatterText.FirstDelimiter | lib/index.js:141 | the position of the first line exactly equal to `---`, or the number of lines; no earlier line equals `---` |
| FrontMatterText.FirstDelimiterUnique | lib/index.js:141 | the stop rule pins down a single closing line |
| FrontMatterText.ReadFrontMatter | lib/index.js:137-145 | the loop over `line` events gathers `line + '\n'` for each line before the first `---` line, and all lines when there is none |
| FrontMatterText.Block | lib/index.js:140-145 | the text handed to `yaml.safeLoad`: each line before the first `---` line, with `\n` after it |
| FrontMatterText.BlockStopsAtDelimiter | lib/index.js:141-143 | the block is exactly the lines before the first `---` line, whatever follows it, further `---` lines included |
| FrontMatterText.BlockWithoutClosing | lib/index.js:140-144 | without a closing `---` line every line goes into the block |
| FrontMatterText.OpeningLineEmpty | lib/index.js:138 | reading from offset 3 makes the rest of the opening line the first line, empty for a file opening with "---\n" |
| FrontMatterText.Categories | lib/index.js:66 | `path.dirname(path.relative(root, file)).split('/')` for a file under the root |
| FrontMatterText.CategoriesAreDirectories | lib/index.js:66 | the categories are the directory names between the root and the file, or the single category "." for a file directly in the root |
| FrontMatterText.CategoriesAreNames | lib/index.js:66 | there is at least one category, and each is a non-empty name without a separator |
| FrontMatterText.CategoriesNested | lib/index.js:66 | `root/blog/drafts/post.md` is filed under `["blog", "drafts"]` |
| FrontMatterText.CategoriesAtRoot | lib/index.js:66 | a file directly in the root is filed under `["."]`, never on the root object itself |
| Plugin.FrontMatter.constructor | lib/index.js:12-15 | the site starts as the root object holding only `all`, and the page starts empty |
| Plugin.FrontMatter.Apply | lib/index.js:17-53 | `apply` installs a fresh empty cache; the loader option objects hold that very cache and the plugin's page; the site is kept; from then on paths are filed under their categories relative to the new root (`Rooted`) |
| Plugin.FrontMatter.OnCompilation | lib/index.js:25-29 | the cache is emptied in place and stays the object the loaders hold; the listed files are processed in order up to the first whose block is not YAML, where the process stops (`crashed`); the cache's keys are then exactly the processed files whose front matter was filed; the site is the old site (never reset) with one new record pushed at the categories of each such file, in list order; each of those records holds its file's decoded properties, categories and URL; each cached path holds the record pushed for the last filed file with that path, and every cached record is one of them |
| Plugin.FrontMatter.ProcessNext | lib/index.js:62-72 | one file of the compilation: the file is processed, and what is known of the cache, the tree and the records extends to it, or stays as it was when the file stops the process |
| Plugin.FrontMatter.ProcessSourceFile | lib/index.js:61-72 | a file is filed exactly when it starts with "---" and its block decodes to nothing or a mapping, and it stops the process exactly when its block is not YAML; a filed record holds the decoded properties, its categories and its URL, is pushed at the categories of its path and cached under the path; otherwise the cache and the site are unchanged |
| Plugin.FrontMatter.Settle | lib/index.js:64-71 | a syntax error stops the process and a scalar rejects the file, both changing nothing; anything else gives a record filed at the categories of the path and cached under it |
| Plugin.FrontMatter.FileRecord | lib/index.js:65-71 | a falsy decoded block becomes `{}`; the record is the last element of the node at its categories and is the very object cached under the file; no other node changes; every cached record stays in the tree at the categories of its path |
| Plugin.FrontMatter.PushData | lib/index.js:70 | the site becomes the pushed tree, stays well formed, and the category array is left empty |
| Plugin.PushInto | lib/index.js:81-91 | the recursion over the shared array yields the pushed node and consumes every segment |
| Plugin.RecordFields | lib/index.js:65-68 | the record has `_categories` (the full category list) and `_url`, and otherwise exactly the decoded properties |
| Plugin.IndexedAfterFiling | lib/index.js:70-71 | pushing a record at the categories of its path and caching it under the path keeps every cached record in the tree at the categories of its own path |
| Plugin.PushedFilesElsewhere | lib/index.js:81-91 | pushing appends to the node at the categories and leaves every other node's records alone |
| Plugin.PushedGrows | lib/index.js:81-91 | pushing never loses or reorders a record anywhere in the tree |
| Plugin.PathsWhere | lib/index.js:28-29 | the paths kept are exactly those of the listed files that pass the filter |
| Plugin.ReplayedStep | lib/index.js:70 | filing one more listed file extends the replay of this compilation by one push of its record at its categories |
| Plugin.ReplayedSkip | lib/index.js:62-64 | a listed file that is not filed leaves the replay of this compilation as it is |
| Plugin.FiledPaths | lib/index.js:62-70 | the categories pushed are those of listed files that pass the filter, no more than one per file |
| Plugin.FirstWhere | lib/index.js:144-145 | the first file that passes the test, or the end of the list: no earlier file passes it |
| Plugin.ProgressStep | lib/index.js:64-71 | filing one more file, its record pushed at its categories and cached under its path, extends the cache's keys by its path, the replay by one push, the records by one holding its properties, and the cached-record index by that path |
| Plugin.ProgressSkip | lib/index.js:62-64 | a file that is not filed leaves the cache, the tree and the records as they were, for one file more |
| Plugin.CachedAtStep | lib/index.js:71 | caching the next filed file's record under its path makes that path hold the newest record and leaves every other cached path holding the record of its own last filed file |
| Plugin.FiledFieldsAt | lib/index.js:65-68 | the record at a filed file's rank among the filed files holds that file's decoded properties, categories and URL |
| Plugin.CachedLastFrom | lib/index.js:65-71 | each path whose file was filed is cached with a record holding the decoded properties, categories and URL of the last filed file with that path |
| Plugin.LastWhereDistinct | lib/index.js:157-169 | when the listed paths are distinct, as the directory walk lists them, every filed file is the last filed file with its path |
| PreLoader.Strip | lib/preLoader.js:13-17 | text not starting with "---" is unchanged; otherwise the result is the text after the first "---" found at index 4 or later, or the text without its first two characters when there is none |
| PreLoader.StripAfterClosing | lib/preLoader.js:14 | with the block closed by the first "---" after the opening line, everything after that "---" is kept, the newline after it included, even when the "---" is inside a line |
| PreLoader.PreLoad | lib/preLoader.js:6-18 | the page is emptied in place and then holds exactly the properties of the file's cached record, or nothing; the cache is only read; the text is returned stripped |
| PostLoader.PostLoad | lib/postLoader.js:4-13 | the text is returned unchanged; the cache keeps its entries; a cached record gets `content` set to the text and keeps its other properties; other records are untouched; nothing is created for an uncached path |
| BuildCycle.CompileFile | lib/preLoader.js:10-17 | through the chain, the page holds the record as it was before compiling, the compiler sees the stripped text, and the output lands on the record the site tree holds at the categories the plugin files that path under; the plugin's invariant is kept |
| JsArrayTree.PushBelow | lib/index.js:81-91 | `pushData` as written one level below a top-level array: an index-named directory reads and writes an element (a hole becomes a fresh array, an array gets the record appended, a record makes `push` throw, given as no result); the name `all` on an array that already holds a record reaches the `all` function, whose missing `push` throws too; any other name a named property holding an array |
| JsArrayTree.SetSlot | lib/index.js:89 | writing element `i` of an array sets that element, keeps the others, and pads a shorter array with holes up to length `i + 1` |
| JsArrayTree.IndexNameBecomesElement | lib/index.js:88-91 | as written, a sub-directory named by an element index past the end of its parent's array becomes a new element after a run of holes, and `all()` on the root returns those holes and the new array |
| JsArrayTree.BlogYearExample | lib/index.js:88-91 | as written, `root/blog/a.md` then `root/blog/2020/post.md` leave `blog` an array of 2021 elements: the first record, 2019 holes, and an array holding the second record |
| JsArrayTree.IndexNameOverRecordThrows | lib/index.js:82-91 | as written, a sub-directory named by the index of a record already filed in its parent makes `pushData` call `push` on that record, which throws |
| JsArrayTree.AllNameOverRecordThrows | lib/index.js:82-91 | as written, a sub-directory named `all` under a directory that already holds a file makes `pushData` call `push` on the attached `all` function, which throws |
| JsArrayTree.PlainNameAgrees | lib/index.js:82-91 | as written, a sub-directory with a plain name becomes a named array on its parent, holding the record as its last element, and leaves the parent's elements, and so `all()` on the root, unchanged; it throws exactly when the name is `all` and the parent already holds a record |
| JsArrayTree.AllSlots | lib/index.js:97-106 | `all()` as written, on a root whose top-level categories are arrays: every element it returns, holes and nested arrays included, is an element of a listed top-level array, and every element of every listed top-level array is returned |

## Left out

- `walkDir`/`walkFile` (lib/index.js:157-190). Directory I/O, promise fan-out
  and `micromatch` glob patterns are not modelled. The listed files are a
  parameter, each given as a path under the root.
- `yaml.safeLoad` is a parameter. Its grammar is not modelled. An array
  document is not modelled either: its record would be an array carrying
  named properties.
- `SpikeUtils.getOutputPath` is a foreign call. The URL is part of each listed
  file.
- Webpack plumbing is not modelled: `compiler.plugin`, `require.resolve`,
  pushing and unshifting onto the loader lists, and finding the option object
  with `.find`. The loaders receive their option objects directly.
- Streams, byte offsets and UTF-8 decoding are not modelled. Texts are
  sequences of characters. Offsets 0..2 and 3 are character offsets, which
  agree with byte offsets whenever the file starts with "---".
- `line` events after `rl.close()` are not modelled: the block stops at the
  first `---` line.
- Concurrency is not modelled. `processFiles` files records as promises
  settle, in an order that varies. The model files them one at a time in list
  order. Nor is the window in which a loader runs before its file's record
  is cached.
- Plugin.FrontMatter.OnCompilation: a block that is not YAML stops the
  process when its file's read finishes, and the files whose reads finish
  before it are filed. The model stops at the first such file in list order
  and files the ones before it; which files were filed first in the source
  depends on timing.
- `all()` on a node other than the root is not modelled. There, `for...in`
  walks the records themselves and the characters of their string
  properties.
- JavaScript property order is not modelled. `for...in` lists integer-like
  keys first. The model enumerates directories in creation order.
- Directory names that reach something other than a named array are not
  modelled by `Pushed`. `Listed` admits only `PlainPath` category paths: no
  segment is `all` or a name of `Object.prototype`, and no segment below the
  top level is an element index or a name of `Array.prototype`.
  - A directory named `all` meets the `all` function once the node carries
    it. A file directly in it makes `push` throw; a file deeper down is
    filed on a property of the shared function itself
    (`JsArrayTree.AllNameOverRecordThrows` one level below the top).
  - A directory named like an element index below the top level is modelled
    as written by `JsArrayTree` (see Findings).
  - An inherited name such as `constructor` reaches a function, and
    `length` the array's length, instead of a category array.
- SiteTree.PushedFilesAt: states the source's behaviour only for a
  `PlainPath` path; an index-named segment below the top level is
  `JsArrayTree.PushBelow`.
- SiteTree.All: the records it gathers are those the source gathers only
  when no directory below the top level is named like an element index. Its
  order is creation order; `for...in` lists integer-like top-level names,
  such as `2020`, first.
- JsArrayTree.AllSlots: its contract states membership in both directions,
  not the order in which the elements come or how often one repeats.
- SiteTree.AllSkipsNested: holds of the source only for a `PlainPath` path;
  `JsArrayTree.IndexNameBecomesElement` shows the source's `all()` growing
  otherwise.
- Plugin.FrontMatter.FileRecord: requires a `PlainPath` category path.
- Plugin.FrontMatter.PushData: requires a `PlainPath` category path.
- Plugin.PushInto: equals `Pushed` by construction, which is the source's
  `pushData` only along a `PlainPath` path.
- Plugin.PushedFilesElsewhere: like `PushedFilesAt`, the source's behaviour
  only along a `PlainPath` path.
- `Text.Dirname` is defined for a relative path with non-empty segments, which is
  what `path.relative` yields for a file under the root. `path.dirname`'s
  handling of absolute paths and trailing separators is not modelled.
- The rejected promise of a file whose block decodes to a scalar is not
  modelled beyond its effect: the file is skipped and nothing is filed.
  Stopping the process on a YAML syntax error is modelled as
  `OnCompilation` returning `crashed` without processing further files.
- Matching the pre-loader's `resourcePath` against the cache keys is not
  modelled. The walker builds those keys as `${dir}/${file}`, so they must be
  spelled the same way; the model takes them as equal strings.
- The round trip from `readline`'s lines back to the text is not stated for
  arbitrary texts. The block is related to the lines by
  `BlockStopsAtDelimiter` and `BlockWithoutClosing`, and to the text's first
  line by `OpeningLineEmpty`.

## Findings

| source | as written | input that shows it | evidently intended | confidence | as-written member | corrected member |
|---|---|---|---|---|---|---|
| lib/index.js:89 | below the top level `locals[f] = []` on an array with an index-named `f` writes an element, so the directory's array becomes an element of its parent, after a run of holes, and `all()` on the root returns the holes and that nested array | `root/blog/a.md`, then `root/blog/2020/post.md` | `2020` becomes a named category of `blog`, and `all()` on the root is unchanged | not executed | JsArrayTree.BlogYearExample | SiteTree.AllSkipsNested |
| lib/index.js:83 | an index-named sub-directory whose index holds a record already filed in the parent makes `pushData` call `push` on that record, which throws, and the file is never cached | `root/blog/a.md`, then `root/blog/0/x.md` | `0` becomes a named category of `blog` holding the second record | not executed | JsArrayTree.IndexNameOverRecordThrows | SiteTree.PushedFilesAt |
