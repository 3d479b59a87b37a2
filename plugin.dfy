/**
 * The `FrontMatter` plugin object of lib/index.js: the site tree it builds,
 * the per-compilation cache of records, the page context it shares with the
 * loaders, and the per-file processing that files a record in both.
 */
module Plugin {
  import opened JsObjects
  import opened Lodash
  import opened SiteTree
  import opened FrontMatterText

  /** The option object injected for the pre-loader; it holds the plugin's own `cache` and `page`. */
  datatype PreLoaderEntry = PreLoaderEntry(cache: Dict<Record>, page: Dict<Value>)

  /** The option object injected for the post-loader; it holds the plugin's own `cache`. */
  datatype PostLoaderEntry = PostLoaderEntry(cache: Dict<Record>)

  /**
   * What `yaml.safeLoad` makes of a block, as far as `processFiles` can tell:
   * - `Nothing`: an empty document or another falsy value, replaced by `{}`;
   * - `Loaded`: a mapping;
   * - `Rejected`: a truthy scalar (a string, a number, `true`); setting
   *   `_categories` on it throws in the class's strict-mode code, which
   *   rejects that file's promise, and nothing is filed;
   * - `Malformed`: a YAML syntax error; `safeLoad` throws inside the
   *   `close` listener of `readline`, where nothing catches it, and the
   *   process stops.
   */
  datatype Decoded = Nothing | Loaded(fields: map<string, Value>) | Rejected | Malformed

  /** A decoded block that becomes a record. */
  predicate Accepted(decoded: Decoded)
  {
    decoded.Nothing? || decoded.Loaded?
  }

  /** What the per-file body of `processFiles` comes to for one file. */
  datatype Outcome = Stored(record: Record) | Skipped | Crashed

  /** A file the directory walk listed: its path, its text, and the output URL the host computes for it. */
  datatype SourceFile = SourceFile(path: string, content: string, url: string)

  class FrontMatter {
    /** `this.site`: the tree published to templates; never reset after construction. */
    var site: Node
    /** `this.page`: the current-page context the pre-loader refills. */
    const page: Dict<Value>
    /** `this.cache`: path to record, for the current compilation. */
    var cache: Dict<Record>
    /** `this.root`: the compiler's context directory. */
    var root: string
    /** How a cached path maps to the categories it is filed under: those of the path under `root` (`Rooted`). */
    ghost var categorize: string -> seq<string>

    /**
     * The site object keeps the shape `pushData` relies on, and every cached
     * record sits in the tree at the categories of its path.
     */
    ghost predicate Valid()
      reads this, cache
    {
      && WellFormed(site) && site.files == [] && site.hasAll
      && Indexed(site, cache.entries, categorize)
    }

    /** Cached paths are filed under their categories relative to the current `root`. */
    ghost predicate Rooted()
      reads this
    {
      categorize == CategoriesUnder(root)
    }

    /**
     * `site = { 'all': this.all }`, `page = {}`. The source creates no cache
     * here; the empty `Dict` only initialises the field, which `Apply`
     * replaces before any use.
     */
    constructor ()
      ensures Valid() && Rooted() && fresh(page) && fresh(cache)
      ensures site == Root && page.entries == map[] && cache.entries == map[]
    {
      site := Root;
      page := new Dict();
      cache := new Dict();
      root := "";
      categorize := CategoriesUnder("");
    }

    /**
     * `apply` followed by `injectLoader`: a fresh `cache`, and loader option
     * objects that hold the very `cache` and `page` objects of the plugin.
     */
    method Apply(root: string) returns (pre: PreLoaderEntry, post: PostLoaderEntry)
      requires Valid()
      modifies this
      ensures Valid() && Rooted() && fresh(cache) && cache.entries == map[] && this.root == root
      ensures site == old(site)
      ensures pre == PreLoaderEntry(cache, page) && post == PostLoaderEntry(cache)
    {
      this.root := root;
      categorize := CategoriesUnder(root);
      cache := new Dict();
      pre := PreLoaderEntry(cache, page);
      post := PostLoaderEntry(cache);
    }

    /**
     * The `compilation` handler: empty the cache in place (the loaders hold
     * the same object), then run the per-file body of `processFiles` on every
     * listed file, one at a time, until a block that is not YAML stops the
     * process. The site tree is not reset: what earlier compilations filed
     * stays in it, and the records of this one are pushed after them, in list
     * order (`records`). Each record holds its file's decoded properties,
     * categories and URL, and each cached path holds the record of the last
     * filed file with that path (`CachedLastFrom` puts the two together).
     */
    method OnCompilation(files: seq<SourceFile>, decode: string -> Decoded)
      returns (crashed: bool, ghost records: seq<Record>)
      requires Valid() && Rooted()
      requires forall i :: 0 <= i < |files| ==> Listed(root, files[i])
      modifies this, cache
      ensures Valid() && Rooted() && cache == old(cache) && root == old(root) && categorize == old(categorize)
      ensures var stop := FirstWhere(files, CrashesBy(decode));
        && (crashed <==> stop < |files|)
        && cache.entries.Keys == PathsWhere(files[..stop], FiledBy(decode))
        && Replayed(old(site), site, files[..stop], categorize, FiledBy(decode), records)
        && Holding(records, FiledFields(files[..stop], decode, categorize))
        && CachedAt(cache.entries, records, files, stop, decode, categorize)
      ensures CachedAmong(cache.entries, records)
      ensures Grows(old(site), site)
    {
      ghost var stop := FirstWhere(files, CrashesBy(decode));
      var _ := Empty(cache);
      records := [];
      GrowsReflexive(site);
      var i := 0;
      while i < |files|
        invariant 0 <= i <= stop
        invariant Valid() && Rooted() && cache == old(cache) && root == old(root) && categorize == old(categorize)
        invariant Progress(old(site), site, cache.entries, files, i, decode, categorize, records)
        invariant Grows(old(site), site)
      {
        var outcome;
        outcome, records := ProcessNext(files, i, decode, old(site), records);
        if outcome.Crashed? {
          assert i == stop;
          crashed := true;
          return;
        }
        assert i < stop;
        i := i + 1;
      }
      assert i == stop;
      crashed := false;
    }

    /**
     * One pass of the loop of `OnCompilation`: process `files[i]`, and extend
     * what is known to the first `i + 1` files, or keep it at `i` when the
     * file stops the process.
     */
    method ProcessNext(files: seq<SourceFile>, i: nat, decode: string -> Decoded,
                       ghost before: Node, ghost records: seq<Record>)
      returns (outcome: Outcome, ghost extended: seq<Record>)
      requires Valid() && Rooted() && i < |files| && Listed(root, files[i])
      requires Progress(before, site, cache.entries, files, i, decode, categorize, records) && Grows(before, site)
      modifies this, cache
      ensures Valid() && Rooted() && cache == old(cache) && root == old(root) && categorize == old(categorize)
      ensures outcome.Crashed? <==> CrashesBy(decode)(files[i])
      ensures Progress(before, site, cache.entries, files, if outcome.Crashed? then i else i + 1, decode, categorize, extended)
      ensures Grows(before, site)
      ensures outcome.Stored? ==> extended == records + [outcome.record]
      ensures !outcome.Stored? ==> extended == records
    {
      ghost var site0, entries0 := site, cache.entries;
      outcome := ProcessSourceFile(files[i], decode);
      extended := records;
      if outcome.Crashed? {
        return;
      }
      if outcome.Stored? {
        ProgressStep(before, site0, entries0, files, i, decode, categorize, records, outcome.record);
        extended := records + [outcome.record];
      } else {
        ProgressSkip(before, site0, entries0, files, i, decode, categorize, records);
      }
      GrowsTransitive(before, site0, site);
    }

    /**
     * The per-file body of `processFiles`: a file that starts with "---" has
     * its block read and decoded; a block that is not YAML stops the process,
     * a scalar is rejected, and otherwise the resulting record is filed under
     * the file's categories and cached under its path. A file without "---"
     * is skipped.
     */
    method ProcessSourceFile(file: SourceFile, decode: string -> Decoded) returns (outcome: Outcome)
      requires Valid() && Rooted() && Listed(root, file)
      modifies this, cache
      ensures Valid() && cache == old(cache) && root == old(root) && categorize == old(categorize)
      ensures outcome.Stored? <==> Filed(file.content, decode)
      ensures outcome.Crashed? <==> Crashes(file.content, decode)
      ensures !outcome.Stored? ==> cache.entries == old(cache.entries) && site == old(site)
      ensures cache.entries.Keys == old(cache.entries.Keys) + (if Filed(file.content, decode) then {file.path} else {})
      ensures outcome.Stored? ==>
        && fresh(outcome.record)
        && outcome.record.fields ==
           RecordFields(decode(Block(FrontMatterLines(file.content))), categorize(file.path), file.url)
        && cache.entries == old(cache.entries)[file.path := outcome.record]
        && site == Pushed(old(site), categorize(file.path), outcome.record)
      ensures Grows(old(site), site)
    {
      if !HasFrontMatter(file.content) {
        outcome := Skipped;
        GrowsReflexive(site);
        return;
      }
      var block := ReadFrontMatter(FrontMatterLines(file.content));
      outcome := Settle(file, decode(block));
    }

    /**
     * What follows the decoding of a file's block: a block that is not YAML
     * throws where nothing catches it, a scalar rejects the file's promise,
     * and anything else reaches the `then` callback of `processFiles`, which
     * files and caches the record.
     */
    method Settle(file: SourceFile, decoded: Decoded) returns (outcome: Outcome)
      requires Valid() && Rooted() && Listed(root, file)
      modifies this, cache
      ensures Valid() && cache == old(cache) && root == old(root) && categorize == old(categorize)
      ensures outcome.Stored? <==> Accepted(decoded)
      ensures outcome.Crashed? <==> decoded.Malformed?
      ensures !outcome.Stored? ==> cache.entries == old(cache.entries) && site == old(site)
      ensures cache.entries.Keys == old(cache.entries.Keys) + (if Accepted(decoded) then {file.path} else {})
      ensures outcome.Stored? ==>
        && fresh(outcome.record)
        && outcome.record.fields == RecordFields(decoded, categorize(file.path), file.url)
        && cache.entries == old(cache.entries)[file.path := outcome.record]
        && site == Pushed(old(site), categorize(file.path), outcome.record)
      ensures Grows(old(site), site)
    {
      if decoded.Malformed? {
        outcome := Crashed;
        GrowsReflexive(site);
        return;
      }
      if decoded.Rejected? {
        outcome := Skipped;
        GrowsReflexive(site);
        return;
      }
      var categories := Categories(root, file.path);
      CategoriesAreNames(root, file.path);
      assert categories == CategoriesUnder(root)(file.path);
      var record := FileRecord(file.path, categories, decoded, file.url);
      outcome := Stored(record);
      PushedGrows(old(site), categories, record);
    }

    /**
     * What `processFiles` does with a decoded block: a falsy result becomes
     * `{}`, the record gets a copy of its categories and its URL, is pushed
     * onto the tree under `categories`, and the same object goes into the cache.
     */
    method FileRecord(file: string, categories: seq<string>, decoded: Decoded, url: string)
      returns (data: Record)
      requires Valid() && categories == categorize(file)
      requires |categories| >= 1 && PlainPath(categories) && Accepted(decoded)
      modifies this, cache
      ensures Valid() && fresh(data) && cache == old(cache) && root == old(root) && categorize == old(categorize)
      ensures data.fields == RecordFields(decoded, categories, url)
      ensures cache.entries == old(cache.entries)[file := data]
      ensures site == Pushed(old(site), categories, data)
      ensures FilesAt(site, categories) == FilesAt(old(site), categories) + [data]
      ensures forall q :: q != categories ==> FilesAt(site, q) == FilesAt(old(site), q)
    {
      ghost var site0, entries0 := site, cache.entries;
      var fields := if decoded.Nothing? then map[] else decoded.fields;
      var folders := new Segments(categories);
      data := new Record(fields);
      data.Set("_categories", StrList(folders.elems));
      data.Set("_url", Str(url));
      PushData(folders, data);
      assert site == Pushed(site0, categories, data);
      cache.Set(file, data);
      PushedFilesElsewhere(site0, categories, data);
      IndexedAfterFiling(site0, entries0, categorize, file, data);
    }

    /**
     * `pushData(path, this.site, data)`: the path array is consumed by
     * `shift`, and the tree becomes `Pushed` of the old tree and the path.
     */
    method PushData(path: Segments, data: Record)
      requires |path.elems| >= 1 && PlainPath(path.elems) && WellFormed(site) && site.files == [] && site.hasAll
      modifies this`site, path
      ensures site == Pushed(old(site), old(path.elems), data)
      ensures WellFormed(site) && site.files == [] && site.hasAll
      ensures path.elems == []
    {
      PlainPathCategories(path.elems);
      PushedWellFormed(site, path.elems, data);
      site := PushInto(path, site, data);
    }
  }

  /**
   * A file the directory walk lists under `root`, whose directories name
   * only plain properties: neither `all`, nor an inherited name, nor, below
   * the top level, an array element.
   */
  predicate Listed(root: string, file: SourceFile)
  {
    UnderRoot(root, file.path) && PlainPath(Categories(root, file.path))
  }

  /** Every node of `before` still holds its records in `after`, possibly with more after them. */
  ghost predicate Grows(before: Node, after: Node)
  {
    forall q :: FilesAt(before, q) <= FilesAt(after, q)
  }

  lemma GrowsReflexive(n: Node)
    ensures Grows(n, n)
  {
  }

  lemma GrowsTransitive(a: Node, b: Node, c: Node)
    requires Grows(a, b) && Grows(b, c)
    ensures Grows(a, c)
  {
    forall q ensures FilesAt(a, q) <= FilesAt(c, q) {
      assert FilesAt(a, q) <= FilesAt(b, q);
    }
  }

  /** Pushing only ever appends: no record is lost or reordered anywhere in the tree. */
  lemma PushedGrows(n: Node, path: seq<string>, data: Record)
    ensures Grows(n, Pushed(n, path, data))
  {
    forall q ensures FilesAt(n, q) <= FilesAt(Pushed(n, path, data), q) {
      PushedFilesAt(n, path, data, q);
    }
  }

  /** A file whose front matter `processFiles` files: it starts with "---" and its block decodes to a record. */
  predicate Filed(content: string, decode: string -> Decoded)
  {
    HasFrontMatter(content) && Accepted(decode(Block(FrontMatterLines(content))))
  }

  /** `Filed` for the block decoder `decode`, as a test on a listed file. */
  function FiledBy(decode: string -> Decoded): SourceFile -> bool
  {
    (file: SourceFile) => Filed(file.content, decode)
  }

  /** A file whose block is not YAML: reading its front matter stops the process. */
  predicate Crashes(content: string, decode: string -> Decoded)
  {
    HasFrontMatter(content) && decode(Block(FrontMatterLines(content))).Malformed?
  }

  /** `Crashes` for the block decoder `decode`, as a test on a listed file. */
  function CrashesBy(decode: string -> Decoded): SourceFile -> bool
  {
    (file: SourceFile) => Crashes(file.content, decode)
  }

  /** The position of the first of `files` that passes `p`, or the number of files when none does. */
  function FirstWhere(files: seq<SourceFile>, p: SourceFile -> bool): (k: nat)
    ensures k <= |files|
    ensures forall j :: 0 <= j < k ==> !p(files[j])
    ensures k < |files| ==> p(files[k])
  {
    if files == [] then 0
    else if p(files[0]) then 0
    else 1 + FirstWhere(files[1..], p)
  }

  /** The categories of a path under `root`; none for any other path. */
  function CategoriesUnder(root: string): string -> seq<string>
  {
    (file: string) => if UnderRoot(root, file) then Categories(root, file) else []
  }

  /** The categories, by `categorize`, of the files among `files` that pass `keep`, in list order. */
  function FiledPaths(files: seq<SourceFile>, categorize: string -> seq<string>, keep: SourceFile -> bool)
    : (paths: seq<seq<string>>)
    ensures |paths| <= |files|
    ensures forall p :: p in paths ==> exists i :: 0 <= i < |files| && keep(files[i]) && p == categorize(files[i].path)
  {
    if files == [] then []
    else
      var init, last := files[..|files| - 1], files[|files| - 1];
      assert forall i :: 0 <= i < |init| ==> init[i] == files[i];
      FiledPaths(init, categorize, keep) + (if keep(last) then [categorize(last.path)] else [])
  }

  lemma FiledPathsExtend(files: seq<SourceFile>, categorize: string -> seq<string>, keep: SourceFile -> bool, i: nat)
    requires i < |files|
    ensures FiledPaths(files[..i + 1], categorize, keep)
         == FiledPaths(files[..i], categorize, keep) + (if keep(files[i]) then [categorize(files[i].path)] else [])
  {
    assert files[..i + 1][..i] == files[..i];
  }

  /** The tree after pushing each record in turn at the matching path. */
  ghost function PushedAll(n: Node, paths: seq<seq<string>>, records: seq<Record>): Node
    requires |paths| == |records|
  {
    if paths == [] then n
    else Pushed(PushedAll(n, paths[..|paths| - 1], records[..|records| - 1]), paths[|paths| - 1], records[|records| - 1])
  }

  /**
   * `after` is `before` with `records` pushed, one by one, at the categories
   * of the files among `files` that pass `keep`, in list order.
   */
  ghost predicate Replayed(before: Node, after: Node, files: seq<SourceFile>, categorize: string -> seq<string>,
                           keep: SourceFile -> bool, records: seq<Record>)
  {
    var paths := FiledPaths(files, categorize, keep);
    |records| == |paths| && after == PushedAll(before, paths, records)
  }

  /** Filing the next file's record extends the replay by one push. */
  lemma ReplayedStep(before: Node, after: Node, files: seq<SourceFile>, i: nat, categorize: string -> seq<string>,
                     keep: SourceFile -> bool, records: seq<Record>, data: Record)
    requires i < |files| && keep(files[i])
    requires Replayed(before, after, files[..i], categorize, keep, records)
    ensures Replayed(before, Pushed(after, categorize(files[i].path), data), files[..i + 1], categorize, keep, records + [data])
  {
    var paths := FiledPaths(files[..i], categorize, keep);
    var path := categorize(files[i].path);
    FiledPathsExtend(files, categorize, keep, i);
    assert (paths + [path])[..|paths|] == paths;
    assert (records + [data])[..|records|] == records;
  }

  /** Skipping the next file leaves the replay as it is. */
  lemma ReplayedSkip(before: Node, after: Node, files: seq<SourceFile>, i: nat, categorize: string -> seq<string>,
                     keep: SourceFile -> bool, records: seq<Record>)
    requires i < |files| && !keep(files[i])
    requires Replayed(before, after, files[..i], categorize, keep, records)
    ensures Replayed(before, after, files[..i + 1], categorize, keep, records)
  {
    FiledPathsExtend(files, categorize, keep, i);
    var paths := FiledPaths(files[..i], categorize, keep);
    assert paths + [] == paths;
  }

  /** The properties of the record `processFiles` files for `file`: its decoded block, categories and URL. */
  function FileFields(file: SourceFile, decode: string -> Decoded, categorize: string -> seq<string>)
    : map<string, Value>
    requires Filed(file.content, decode)
  {
    RecordFields(decode(Block(FrontMatterLines(file.content))), categorize(file.path), file.url)
  }

  /** The properties of the records filed for `files`, one per filed file, in list order. */
  function FiledFields(files: seq<SourceFile>, decode: string -> Decoded, categorize: string -> seq<string>)
    : seq<map<string, Value>>
  {
    if files == [] then []
    else
      var init, last := files[..|files| - 1], files[|files| - 1];
      FiledFields(init, decode, categorize)
        + (if Filed(last.content, decode) then [FileFields(last, decode, categorize)] else [])
  }

  lemma FiledFieldsExtend(files: seq<SourceFile>, decode: string -> Decoded, categorize: string -> seq<string>, i: nat)
    requires i < |files|
    ensures FiledFields(files[..i + 1], decode, categorize)
         == FiledFields(files[..i], decode, categorize)
            + (if Filed(files[i].content, decode) then [FileFields(files[i], decode, categorize)] else [])
  {
    assert files[..i + 1][..i] == files[..i];
  }

  /** The records hold, one for one, the given properties. */
  ghost predicate Holding(records: seq<Record>, fields: seq<map<string, Value>>)
    reads records
  {
    |records| == |fields| && forall j :: 0 <= j < |records| ==> records[j].fields == fields[j]
  }

  /** Appending a record holding `f` to records holding `fields` holds `fields + [f]`. */
  lemma HoldingAppend(records: seq<Record>, fields: seq<map<string, Value>>, data: Record, f: map<string, Value>)
    requires Holding(records, fields) && data.fields == f
    ensures Holding(records + [data], fields + [f])
  {
  }

  /**
   * What is known after the first `n` files of a compilation: the cache's
   * keys, the tree as `before` with `records` pushed in list order, what each
   * record holds, and which record each cached path holds.
   */
  ghost predicate Progress(before: Node, site: Node, entries: map<string, Record>, files: seq<SourceFile>, n: nat,
                           decode: string -> Decoded, categorize: string -> seq<string>, records: seq<Record>)
    requires n <= |files|
    reads records
  {
    && entries.Keys == PathsWhere(files[..n], FiledBy(decode))
    && Replayed(before, site, files[..n], categorize, FiledBy(decode), records)
    && Holding(records, FiledFields(files[..n], decode, categorize))
    && CachedAt(entries, records, files, n, decode, categorize)
    && CachedAmong(entries, records)
  }

  /** Filing the next file, pushed and cached under its path, extends the progress by one file and one record. */
  lemma ProgressStep(before: Node, site: Node, entries: map<string, Record>, files: seq<SourceFile>, i: nat,
                     decode: string -> Decoded, categorize: string -> seq<string>, records: seq<Record>, data: Record)
    requires i < |files| && Filed(files[i].content, decode)
    requires Progress(before, site, entries, files, i, decode, categorize, records)
    requires data.fields == FileFields(files[i], decode, categorize)
    ensures Progress(before, Pushed(site, categorize(files[i].path), data), entries[files[i].path := data],
                     files, i + 1, decode, categorize, records + [data])
  {
    PathsWhereExtend(files, FiledBy(decode), i);
    FiledFieldsExtend(files, decode, categorize, i);
    assert FiledBy(decode)(files[i]);
    ReplayedStep(before, site, files, i, categorize, FiledBy(decode), records, data);
    CachedAtStep(entries, records, files, i, decode, categorize, data);
    HoldingAppend(records, FiledFields(files[..i], decode, categorize), data, FileFields(files[i], decode, categorize));
    CachedAmongStep(entries, records, files[i].path, data);
  }

  /** A file that is not filed extends the progress by one file and no record. */
  lemma ProgressSkip(before: Node, site: Node, entries: map<string, Record>, files: seq<SourceFile>, i: nat,
                     decode: string -> Decoded, categorize: string -> seq<string>, records: seq<Record>)
    requires i < |files| && !Filed(files[i].content, decode)
    requires Progress(before, site, entries, files, i, decode, categorize, records)
    ensures Progress(before, site, entries, files, i + 1, decode, categorize, records)
  {
    PathsWhereExtend(files, FiledBy(decode), i);
    FiledFieldsExtend(files, decode, categorize, i);
    assert !FiledBy(decode)(files[i]);
    ReplayedSkip(before, site, files, i, categorize, FiledBy(decode), records);
    CachedAtSkip(entries, records, files, i, decode, categorize);
  }

  /** Every cached record is one of `records`. */
  predicate CachedAmong(entries: map<string, Record>, records: seq<Record>)
  {
    forall f :: f in entries ==> entries[f] in records
  }

  /** Caching one more record and adding it to `records` keeps `CachedAmong`. */
  lemma CachedAmongStep(entries: map<string, Record>, records: seq<Record>, file: string, data: Record)
    requires CachedAmong(entries, records)
    ensures CachedAmong(entries[file := data], records + [data])
  {
    forall f | f in entries && f != file ensures entries[f] in records + [data] {
      assert entries[f] in records;
    }
  }

  /** `files[i]` passes `keep`, and no later file among the first `n` with the same path does. */
  predicate LastWhere(files: seq<SourceFile>, n: nat, i: nat, keep: SourceFile -> bool)
    requires n <= |files|
  {
    i < n && keep(files[i]) && forall j :: i < j < n && files[j].path == files[i].path ==> !keep(files[j])
  }

  /** With paths listed once each, every file that passes `keep` is the last with its path. */
  lemma LastWhereDistinct(files: seq<SourceFile>, n: nat, i: nat, keep: SourceFile -> bool)
    requires n <= |files| && i < n && keep(files[i])
    requires forall j, k :: 0 <= j < k < n ==> files[j].path != files[k].path
    ensures LastWhere(files, n, i, keep)
  {
  }

  /**
   * Each path among the first `n` files is cached, when some file with it is
   * filed, with the record of the last such file.
   */
  ghost predicate CachedLast(entries: map<string, Record>, files: seq<SourceFile>, n: nat,
                             decode: string -> Decoded, categorize: string -> seq<string>)
    requires n <= |files|
    reads entries.Values
  {
    forall i :: 0 <= i < n && LastWhere(files, n, i, FiledBy(decode)) ==>
      && files[i].path in entries
      && entries[files[i].path].fields == FileFields(files[i], decode, categorize)
  }

  /**
   * Each path among the first `n` files is cached, when some file with it is
   * filed, with the record pushed for the last such file: the one at its rank
   * among the filed files.
   */
  ghost predicate CachedAt(entries: map<string, Record>, records: seq<Record>, files: seq<SourceFile>, n: nat,
                           decode: string -> Decoded, categorize: string -> seq<string>)
    requires n <= |files|
  {
    forall i :: 0 <= i < n && LastWhere(files, n, i, FiledBy(decode)) ==>
      var rank := |FiledFields(files[..i], decode, categorize)|;
      files[i].path in entries && rank < |records| && entries[files[i].path] == records[rank]
  }

  /** Filing the next file, caching its record under its path and appending it to `records` keeps `CachedAt`. */
  lemma CachedAtStep(entries: map<string, Record>, records: seq<Record>, files: seq<SourceFile>, i: nat,
                     decode: string -> Decoded, categorize: string -> seq<string>, data: Record)
    requires i < |files| && Filed(files[i].content, decode)
    requires |records| == |FiledFields(files[..i], decode, categorize)|
    requires CachedAt(entries, records, files, i, decode, categorize)
    ensures CachedAt(entries[files[i].path := data], records + [data], files, i + 1, decode, categorize)
  {
    var e, r := entries[files[i].path := data], records + [data];
    forall k | 0 <= k < i + 1 && LastWhere(files, i + 1, k, FiledBy(decode))
      ensures var rank := |FiledFields(files[..k], decode, categorize)|;
        files[k].path in e && rank < |r| && e[files[k].path] == r[rank]
    {
      if k < i {
        assert files[k].path != files[i].path;
        assert LastWhere(files, i, k, FiledBy(decode));
      }
    }
  }

  /** Skipping the next file keeps `CachedAt`. */
  lemma CachedAtSkip(entries: map<string, Record>, records: seq<Record>, files: seq<SourceFile>, i: nat,
                     decode: string -> Decoded, categorize: string -> seq<string>)
    requires i < |files| && !Filed(files[i].content, decode)
    requires CachedAt(entries, records, files, i, decode, categorize)
    ensures CachedAt(entries, records, files, i + 1, decode, categorize)
  {
    forall k | 0 <= k < i + 1 && LastWhere(files, i + 1, k, FiledBy(decode))
      ensures LastWhere(files, i, k, FiledBy(decode))
    {
    }
  }

  /** The properties filed for the first `m` files begin those filed for the first `n`. */
  lemma {:induction false} FiledFieldsPrefix(files: seq<SourceFile>, m: nat, n: nat,
                                             decode: string -> Decoded, categorize: string -> seq<string>)
    requires m <= n <= |files|
    ensures FiledFields(files[..m], decode, categorize) <= FiledFields(files[..n], decode, categorize)
    decreases n - m
  {
    if m < n {
      FiledFieldsPrefix(files, m, n - 1, decode, categorize);
      FiledFieldsExtend(files, decode, categorize, n - 1);
    }
  }

  /** The record at a filed file's rank among the filed files holds that file's properties. */
  lemma FiledFieldsAt(files: seq<SourceFile>, n: nat, i: nat, decode: string -> Decoded, categorize: string -> seq<string>)
    requires i < n <= |files| && Filed(files[i].content, decode)
    ensures var rank := |FiledFields(files[..i], decode, categorize)|;
      rank < |FiledFields(files[..n], decode, categorize)|
      && FiledFields(files[..n], decode, categorize)[rank] == FileFields(files[i], decode, categorize)
  {
    var upto := FiledFields(files[..i + 1], decode, categorize);
    FiledFieldsExtend(files, decode, categorize, i);
    assert upto == FiledFields(files[..i], decode, categorize) + [FileFields(files[i], decode, categorize)];
    FiledFieldsPrefix(files, i + 1, n, decode, categorize);
    assert upto[|FiledFields(files[..i], decode, categorize)|] == FileFields(files[i], decode, categorize);
  }

  /** Records holding the filed files' properties, cached by rank, give each cached path its file's properties. */
  lemma CachedLastFrom(entries: map<string, Record>, records: seq<Record>, files: seq<SourceFile>, n: nat,
                       decode: string -> Decoded, categorize: string -> seq<string>)
    requires n <= |files|
    requires CachedAt(entries, records, files, n, decode, categorize)
    requires Holding(records, FiledFields(files[..n], decode, categorize))
    ensures CachedLast(entries, files, n, decode, categorize)
  {
    forall i | 0 <= i < n && LastWhere(files, n, i, FiledBy(decode))
      ensures files[i].path in entries && entries[files[i].path].fields == FileFields(files[i], decode, categorize)
    {
      FiledFieldsAt(files, n, i, decode, categorize);
    }
  }

  /** The paths of the files, among `files`, that pass `keep`. */
  function PathsWhere(files: seq<SourceFile>, keep: SourceFile -> bool): (paths: set<string>)
    ensures forall p :: p in paths <==> exists i :: 0 <= i < |files| && keep(files[i]) && files[i].path == p
  {
    if files == [] then {}
    else
      var init, last := files[..|files| - 1], files[|files| - 1];
      var paths := PathsWhere(init, keep);
      assert forall i :: 0 <= i < |init| ==> init[i] == files[i];
      paths + (if keep(last) then {last.path} else {})
  }

  lemma PathsWhereExtend(files: seq<SourceFile>, keep: SourceFile -> bool, i: nat)
    requires i < |files|
    ensures PathsWhere(files[..i + 1], keep) == PathsWhere(files[..i], keep) + (if keep(files[i]) then {files[i].path} else {})
  {
    assert files[..i + 1][..i] == files[..i];
  }

  /**
   * The properties of a record: those of the decoded block (none when it
   * decodes to nothing), with `_categories` and `_url` set over them.
   */
  function RecordFields(decoded: Decoded, categories: seq<string>, url: string): (fields: map<string, Value>)
    requires Accepted(decoded)
    ensures "_categories" in fields && fields["_categories"] == StrList(categories)
    ensures "_url" in fields && fields["_url"] == Str(url)
    ensures forall k :: k != "_categories" && k != "_url" ==>
      (k in fields <==> decoded.Loaded? && k in decoded.fields)
    ensures forall k :: k in fields && k != "_categories" && k != "_url" ==> fields[k] == decoded.fields[k]
  {
    (if decoded.Loaded? then decoded.fields else map[])["_categories" := StrList(categories)]["_url" := Str(url)]
  }

  /** Every cached record sits in the tree at the categories, by `categorize`, of its path. */
  ghost predicate Indexed(site: Node, entries: map<string, Record>, categorize: string -> seq<string>)
  {
    forall f :: f in entries ==> entries[f] in FilesAt(site, categorize(f))
  }

  /** Filing a record under the categories of `file` and caching it under `file` keeps the cache indexed. */
  lemma IndexedAfterFiling(site: Node, entries: map<string, Record>, categorize: string -> seq<string>,
                           file: string, data: Record)
    requires Indexed(site, entries, categorize)
    ensures Indexed(Pushed(site, categorize(file), data), entries[file := data], categorize)
  {
    var r := Pushed(site, categorize(file), data);
    var e := entries[file := data];
    forall g | g in e ensures e[g] in FilesAt(r, categorize(g)) {
      PushedFilesAt(site, categorize(file), data, categorize(g));
    }
  }

  /** Pushing appends to the node at the path and leaves every other node's records alone. */
  lemma PushedFilesElsewhere(site: Node, categories: seq<string>, data: Record)
    ensures FilesAt(Pushed(site, categories, data), categories) == FilesAt(site, categories) + [data]
    ensures forall q :: q != categories ==> FilesAt(Pushed(site, categories, data), q) == FilesAt(site, q)
  {
    PushedFilesAt(site, categories, data, categories);
    forall q | q != categories
      ensures FilesAt(Pushed(site, categories, data), q) == FilesAt(site, q)
    {
      PushedFilesAt(site, categories, data, q);
    }
  }

  /**
   * One level of `pushData`: at the end of the path push the record and
   * attach `all`; otherwise shift the next segment, create `[]` for it if
   * missing, and descend.
   */
  method PushInto(path: Segments, locals: Node, data: Record) returns (r: Node)
    modifies path
    ensures r == Pushed(locals, old(path.elems), data)
    ensures path.elems == []
    decreases |path.elems|
  {
    if |path.elems| < 1 {
      r := locals.(files := locals.files + [data], hasAll := true);
      return;
    }
    var shifted := path.Shift();
    var f := shifted.value;
    var child := if f in locals.children then locals.children[f] else NewArray;
    var pushed := PushInto(path, child, data);
    r := locals.(children := locals.children[f := pushed],
                 keys := if f in locals.children then locals.keys else locals.keys + [f]);
  }
}
