/**
 * The pure parts of lib/index.js: the front-matter test on a file's first
 * three characters, the block `readFrontMatter` gathers from the file's
 * lines, and the category path `processFiles` computes for a file.
 */
module FrontMatterText {
  import opened Text

  /** The line that opens and closes a front-matter block. */
  const Delimiter: string := "---"

  /**
   * `hasFrontMatter`: the (at most three) characters read from offsets 0..2
   * equal "---". An empty file emits no data and a shorter one less than three
   * characters, so both give false.
   */
  function HasFrontMatter(content: string): (r: bool)
    ensures r <==> |content| >= 3 && content[0] == '-' && content[1] == '-' && content[2] == '-'
  {
    Prefix(content, 3) == Delimiter
  }

  /** The lines `readline` emits for the file read from offset 3, past the opening "---". */
  function FrontMatterLines(content: string): seq<string>
  {
    Lines(Suffix(content, 3))
  }

  /** The index of the first line exactly equal to "---", or the number of lines. */
  function FirstDelimiter(lines: seq<string>): (k: nat)
    ensures k <= |lines|
    ensures forall j :: 0 <= j < k ==> lines[j] != Delimiter
    ensures k < |lines| ==> lines[k] == Delimiter
  {
    if lines == [] || lines[0] == Delimiter then 0 else 1 + FirstDelimiter(lines[1..])
  }

  /** The block `readFrontMatter` hands to the decoder: each line before the closing "---", newline-terminated. */
  function Block(lines: seq<string>): string
  {
    Unlines(lines[..FirstDelimiter(lines)])
  }

  /** The stop rule pins down the closing line: the first "---" or, failing that, the end. */
  lemma FirstDelimiterUnique(lines: seq<string>, i: nat)
    requires i <= |lines|
    requires forall j :: 0 <= j < i ==> lines[j] != Delimiter
    requires i < |lines| ==> lines[i] == Delimiter
    ensures FirstDelimiter(lines) == i
  {
  }

  /**
   * `readFrontMatter`: for each `line` event, stop at a line exactly equal to
   * "---" (`rl.close()`), otherwise append the line and a newline.
   */
  method ReadFrontMatter(lines: seq<string>) returns (frontMatter: string)
    ensures frontMatter == Block(lines)
  {
    frontMatter := "";
    var i := 0;
    while i < |lines|
      invariant 0 <= i <= |lines|
      invariant forall j :: 0 <= j < i ==> lines[j] != Delimiter
      invariant frontMatter == Unlines(lines[..i])
    {
      if lines[i] == Delimiter {
        break;
      }
      UnlinesAppend(lines[..i], lines[i]);
      assert lines[..i + 1] == lines[..i] + [lines[i]];
      frontMatter := frontMatter + lines[i] + "\n";
      i := i + 1;
    }
    FirstDelimiterUnique(lines, i);
  }

  /**
   * The block is exactly the lines before the first "---" line; whatever
   * follows it, further "---" lines included, is not read into the block.
   */
  lemma {:induction false} BlockStopsAtDelimiter(before: seq<string>, after: seq<string>)
    requires Delimiter !in before
    ensures Block(before + [Delimiter] + after) == Unlines(before)
  {
    var lines := before + [Delimiter] + after;
    FirstDelimiterUnique(lines, |before|);
    assert lines[..|before|] == before;
  }

  /** Without a closing "---" line every line goes into the block. */
  lemma {:induction false} BlockWithoutClosing(lines: seq<string>)
    requires Delimiter !in lines
    ensures Block(lines) == Unlines(lines)
  {
    FirstDelimiterUnique(lines, |lines|);
    assert lines[..|lines|] == lines;
  }

  /**
   * The first line read is the remainder of the opening line, which is empty
   * when the file opens with "---" and a newline.
   */
  lemma OpeningLineEmpty(rest: string)
    ensures FrontMatterLines("---\n" + rest) == [""] + Lines(rest)
  {
    assert Suffix("---\n" + rest, 3) == "" + "\n" + rest;
    LinesCons("", rest);
  }

  /** A path relative to the root as `path.relative` produces it: no empty segment. */
  predicate IsRelativePath(rel: string)
  {
    forall i :: 0 <= i < |Split(rel, '/')| ==> Split(rel, '/')[i] != ""
  }

  /** A file the walker found under `root`: `${root}/${rel}`. */
  predicate UnderRoot(root: string, file: string)
  {
    |root| < |file| && file[..|root|] == root && file[|root|] == '/' && IsRelativePath(file[|root| + 1..])
  }

  /** `path.relative(root, file)` for a file under the root. */
  function Relative(root: string, file: string): string
    requires UnderRoot(root, file)
  {
    file[|root| + 1..]
  }

  /** `path.dirname(path.relative(root, file)).split(path.sep)` */
  function Categories(root: string, file: string): seq<string>
    requires UnderRoot(root, file)
  {
    Split(Dirname(Relative(root, file)), '/')
  }

  /**
   * The categories are the directory names between the root and the file;
   * a file directly in the root gets the single category ".".
   */
  lemma CategoriesAreDirectories(root: string, file: string)
    requires UnderRoot(root, file)
    ensures var segments := Split(Relative(root, file), '/');
      Categories(root, file) == if |segments| == 1 then ["."] else segments[..|segments| - 1]
  {
    var rel := Relative(root, file);
    var k := LastIndex(rel, '/');
    if k == -1 {
      SplitFree(rel, '/');
      SplitFree(".", '/');
    } else {
      assert rel == rel[..k] + ['/'] + rel[k + 1..];
      SplitAround(rel[..k], rel[k + 1..], '/');
      SplitFree(rel[k + 1..], '/');
      var segments := Split(rel, '/');
      assert segments == Split(rel[..k], '/') + [rel[k + 1..]];
      assert segments[..|segments| - 1] == Split(rel[..k], '/');
      assert |segments| > 1;
    }
  }

  /** Every category is a non-empty name without a separator. */
  lemma CategoriesAreNames(root: string, file: string)
    requires UnderRoot(root, file)
    ensures |Categories(root, file)| >= 1
    ensures forall i :: 0 <= i < |Categories(root, file)| ==>
      Categories(root, file)[i] != "" && '/' !in Categories(root, file)[i]
  {
    CategoriesAreDirectories(root, file);
    SplitPartsFree(Dirname(Relative(root, file)), '/');
  }

  /** A plain file or directory name: non-empty, no separator. */
  predicate IsName(name: string)
  {
    name != "" && '/' !in name
  }

  /** `root/blog/drafts/post.md` is filed under ["blog", "drafts"]. */
  lemma CategoriesNested(root: string, dir: string, subdir: string, name: string)
    requires IsName(dir) && IsName(subdir) && IsName(name)
    ensures UnderRoot(root, root + "/" + dir + "/" + subdir + "/" + name)
    ensures Categories(root, root + "/" + dir + "/" + subdir + "/" + name) == [dir, subdir]
  {
    var file := root + "/" + dir + "/" + subdir + "/" + name;
    var rel := dir + ['/'] + (subdir + ['/'] + name);
    assert file[|root| + 1..] == rel;
    SplitAround(dir, subdir + ['/'] + name, '/');
    SplitAround(subdir, name, '/');
    SplitFree(dir, '/');
    SplitFree(subdir, '/');
    SplitFree(name, '/');
    var segments := Split(rel, '/');
    assert segments == [dir, subdir, name];
    assert UnderRoot(root, file);
    CategoriesAreDirectories(root, file);
    assert segments[..|segments| - 1] == [dir, subdir];
  }

  /** A file directly in the root is filed under ["."], not on the root itself. */
  lemma CategoriesAtRoot(root: string, name: string)
    requires IsName(name)
    ensures UnderRoot(root, root + "/" + name)
    ensures Categories(root, root + "/" + name) == ["."]
  {
    var file := root + "/" + name;
    assert file[|root| + 1..] == name;
    SplitFree(name, '/');
    assert UnderRoot(root, file);
    CategoriesAreDirectories(root, file);
  }
}
