/**
 * The site tree that `pushData` builds (lib/index.js): every directory of the
 * project becomes a node holding the records of the files directly in it, and
 * one named property per sub-directory. On the root, `all()` gathers records.
 */
module SiteTree {
  import opened JsObjects

  /**
   * A node of the tree. Below the root a node is a JavaScript array: its
   * elements are `files`, and its named properties are the sub-directories in
   * `children`, created in the order `keys` records. `hasAll` says whether the
   * `all` function has been attached as a property.
   */
  datatype Node = Node(files: seq<Record>, children: map<string, Node>, keys: seq<string>, hasAll: bool)

  /** The property under which the plugin stores the `all` function. */
  const AllKey: string := "all"

  /** The root object `{ 'all': this.all }` the plugin starts from. */
  const Root: Node := Node([], map[], [], true)

  /** The empty array `[]` that `pushData` creates for a missing segment. */
  const NewArray: Node := Node([], map[], [], false)

  /** A directory name that does not collide with the `all` property. */
  predicate IsCategory(name: string)
  {
    name != AllKey
  }

  predicate AllCategories(path: seq<string>)
  {
    forall i :: 0 <= i < |path| ==> IsCategory(path[i])
  }

  predicate IsDigit(c: char)
  {
    '0' <= c <= '9'
  }

  /** The number a string of decimal digits spells. */
  function DecimalValue(s: string): nat
    requires forall i :: 0 <= i < |s| ==> IsDigit(s[i])
  {
    if s == [] then 0
    else
      assert IsDigit(s[|s| - 1]);
      10 * DecimalValue(s[..|s| - 1]) + (s[|s| - 1] as int - '0' as int)
  }

  /**
   * A property name that a JavaScript array treats as an element index: the
   * canonical decimal spelling of a number below 2^32 - 1.
   */
  predicate IsArrayIndex(name: string)
  {
    && |name| >= 1
    && (forall i :: 0 <= i < |name| ==> IsDigit(name[i]))
    && (name[0] != '0' || |name| == 1)
    && DecimalValue(name) < 0xFFFF_FFFF
  }

  /** Names every object inherits from `Object.prototype`. */
  const ObjectPrototypeNames: set<string> := {
    "constructor", "hasOwnProperty", "isPrototypeOf", "propertyIsEnumerable", "toLocaleString",
    "toString", "valueOf", "__proto__", "__defineGetter__", "__defineSetter__",
    "__lookupGetter__", "__lookupSetter__"
  }

  /** Names every array has besides its elements: `length` and the methods of `Array.prototype`. */
  const ArrayPrototypeNames: set<string> := {
    "length", "at", "concat", "copyWithin", "entries", "every", "fill", "filter", "find",
    "findIndex", "findLast", "findLastIndex", "flat", "flatMap", "forEach", "includes",
    "indexOf", "join", "keys", "lastIndexOf", "map", "pop", "push", "reduce", "reduceRight",
    "reverse", "shift", "slice", "some", "sort", "splice", "toReversed", "toSorted",
    "toSpliced", "unshift", "values", "with"
  }

  /**
   * A category path along which `pushData` reads and creates only named
   * properties holding arrays: no segment is `all` or a name the object at
   * that level inherits, and below the top level, where the object is an
   * array, no segment is an element index.
   */
  predicate PlainPath(path: seq<string>)
  {
    forall i :: 0 <= i < |path| ==>
      && IsCategory(path[i])
      && path[i] !in ObjectPrototypeNames
      && (i > 0 ==> !IsArrayIndex(path[i]) && path[i] !in ArrayPrototypeNames)
  }

  lemma PlainPathCategories(path: seq<string>)
    requires PlainPath(path)
    ensures AllCategories(path)
  {
  }

  /** `keys` names exactly the children of the node. */
  ghost predicate KeysListChildren(n: Node)
  {
    forall k :: k in n.children <==> k in n.keys
  }

  /** The shape every node keeps: `keys` lists each child once, in creation order. */
  ghost predicate WellFormed(n: Node)
  {
    && (forall i, j :: 0 <= i < j < |n.keys| ==> n.keys[i] != n.keys[j])
    && KeysListChildren(n)
    && AllKey !in n.children
    && (forall k :: k in n.children ==> WellFormed(n.children[k]))
  }

  /** The node reached by following `path` one segment per level, if there is one. */
  function NodeAt(n: Node, path: seq<string>): Option<Node>
    decreases |path|
  {
    if path == [] then Some(n)
    else if path[0] in n.children then NodeAt(n.children[path[0]], path[1..])
    else None
  }

  /** The records filed directly under `path`; none when there is no such node. */
  function FilesAt(n: Node, path: seq<string>): seq<Record>
  {
    match NodeAt(n, path)
    case Some(m) => m.files
    case None => []
  }

  /**
   * The tree after `pushData(path, n, data)`: walk down one segment per
   * level, creating `[]` where a segment is missing, and at the end of the
   * path push `data` and attach `all`.
   */
  function Pushed(n: Node, path: seq<string>, data: Record): Node
    decreases |path|
  {
    if |path| < 1 then n.(files := n.files + [data], hasAll := true)
    else
      var f := path[0];
      var child := if f in n.children then n.children[f] else NewArray;
      n.(children := n.children[f := Pushed(child, path[1..], data)],
         keys := if f in n.children then n.keys else n.keys + [f])
  }

  lemma {:induction false} NewArrayEmpty(path: seq<string>)
    ensures FilesAt(NewArray, path) == []
  {
  }

  /**
   * Pushing appends `data` as the last record of the node at `path` and
   * changes the records of no other node.
   */
  lemma {:induction false} PushedFilesAt(n: Node, path: seq<string>, data: Record, q: seq<string>)
    ensures FilesAt(Pushed(n, path, data), q) == FilesAt(n, q) + (if q == path then [data] else [])
    decreases |path|
  {
    if |path| == 0 {
      if q != [] {
        assert Pushed(n, path, data).children == n.children;
      }
    } else if q == [] {
      assert Pushed(n, path, data).files == n.files;
    } else {
      var f := path[0];
      var child := if f in n.children then n.children[f] else NewArray;
      var r := Pushed(n, path, data);
      if q[0] == f {
        PushedFilesAt(child, path[1..], data, q[1..]);
        assert FilesAt(r, q) == FilesAt(Pushed(child, path[1..], data), q[1..]);
        if f !in n.children {
          NewArrayEmpty(q[1..]);
        }
        assert FilesAt(n, q) == FilesAt(child, q[1..]);
        assert (q == path) == (q[1..] == path[1..]);
      } else {
        assert q != path;
        if q[0] in n.children {
          assert r.children[q[0]] == n.children[q[0]];
        }
      }
    }
  }

  /**
   * After pushing, a node exists at `q` exactly when one existed before or
   * `q` lies on the pushed path; the node at the end of the path carries `all`.
   */
  lemma {:induction false} PushedNodes(n: Node, path: seq<string>, data: Record, q: seq<string>)
    ensures NodeAt(Pushed(n, path, data), q).Some? <==> NodeAt(n, q).Some? || q <= path
    ensures NodeAt(Pushed(n, path, data), path).Some? && NodeAt(Pushed(n, path, data), path).value.hasAll
    decreases |path|
  {
    var r := Pushed(n, path, data);
    if |path| > 0 {
      var f := path[0];
      var child := if f in n.children then n.children[f] else NewArray;
      PushedNodes(child, path[1..], data, path[1..]);
      assert NodeAt(r, path) == NodeAt(Pushed(child, path[1..], data), path[1..]);
      if q != [] {
        if q[0] == f {
          PushedNodes(child, path[1..], data, q[1..]);
          assert NodeAt(r, q) == NodeAt(Pushed(child, path[1..], data), q[1..]);
          if f !in n.children {
            NewArrayNodes(q[1..]);
          }
          assert (q <= path) == (q[1..] <= path[1..]);
        } else {
          assert !(q <= path);
          if q[0] in n.children {
            assert r.children[q[0]] == n.children[q[0]];
          }
        }
      }
    }
  }

  /**
   * Pushing changes only the nodes on the path: every node whose path is not
   * a prefix of the pushed one, below the terminal node included, is the same
   * as before.
   */
  lemma {:induction false} PushedOffPath(n: Node, path: seq<string>, data: Record, q: seq<string>)
    requires !(q <= path)
    ensures NodeAt(Pushed(n, path, data), q) == NodeAt(n, q)
    decreases |path|
  {
    var r := Pushed(n, path, data);
    assert q != [];
    if |path| == 0 {
      assert r.children == n.children;
    } else {
      var f := path[0];
      var child := if f in n.children then n.children[f] else NewArray;
      if q[0] == f {
        assert !(q[1..] <= path[1..]);
        PushedOffPath(child, path[1..], data, q[1..]);
        assert NodeAt(r, q) == NodeAt(Pushed(child, path[1..], data), q[1..]);
        if f !in n.children {
          NewArrayNodes(q[1..]);
          assert NodeAt(child, q[1..]) == None;
        }
      } else if q[0] in n.children {
        assert r.children[q[0]] == n.children[q[0]];
      }
    }
  }

  /**
   * A directory that only lies on the way to the pushed path and did not
   * exist before is created as a bare `[]`: it does not carry `all`.
   */
  lemma {:induction false} PushedIntermediate(n: Node, path: seq<string>, data: Record, q: seq<string>)
    requires q < path && NodeAt(n, q).None?
    ensures NodeAt(Pushed(n, path, data), q).Some?
    ensures !NodeAt(Pushed(n, path, data), q).value.hasAll
    decreases |path|
  {
    var f := path[0];
    var child := if f in n.children then n.children[f] else NewArray;
    var r := Pushed(n, path, data);
    assert q != [] && q[0] == f;
    assert NodeAt(r, q) == NodeAt(Pushed(child, path[1..], data), q[1..]);
    assert q[1..] < path[1..];
    if f in n.children {
      PushedIntermediate(child, path[1..], data, q[1..]);
    } else if q[1..] == [] {
      assert path[1..] != [];
    } else {
      NewArrayNodes(q[1..]);
      PushedIntermediate(child, path[1..], data, q[1..]);
    }
  }

  lemma {:induction false} NewArrayNodes(path: seq<string>)
    ensures NodeAt(NewArray, path).Some? <==> path == []
  {
  }

  /** Pushing along category names keeps the tree well formed. */
  lemma {:induction false} PushedWellFormed(n: Node, path: seq<string>, data: Record)
    requires WellFormed(n) && AllCategories(path)
    ensures WellFormed(Pushed(n, path, data))
    decreases |path|
  {
    if |path| > 0 {
      var f := path[0];
      var child := if f in n.children then n.children[f] else NewArray;
      assert AllCategories(path[1..]) by {
        forall i | 0 <= i < |path[1..]| ensures IsCategory(path[1..][i]) {
          assert path[1..][i] == path[i + 1];
        }
      }
      PushedWellFormed(child, path[1..], data);
      var r := Pushed(n, path, data);
      assert IsCategory(path[0]);
      forall k | k in r.children ensures WellFormed(r.children[k]) {
        if k != f {
          assert r.children[k] == n.children[k];
        }
      }
      if f !in n.children {
        assert f !in n.keys;
        forall i, j | 0 <= i < j < |r.keys| ensures r.keys[i] != r.keys[j] {
          if j == |n.keys| {
            assert r.keys[j] == f;
            assert r.keys[i] == n.keys[i];
          }
        }
      }
    }
  }

  /** The records directly in the child `k`; none when there is no such child. */
  function Direct(children: map<string, Node>, k: string): seq<Record>
  {
    if k in children then children[k].files else []
  }

  /** `values.concat(array)` over the top-level properties `keys`, in that order. */
  function TopFiles(children: map<string, Node>, keys: seq<string>): seq<Record>
  {
    if keys == [] then []
    else TopFiles(children, keys[..|keys| - 1]) + Direct(children, keys[|keys| - 1])
  }

  /** A record is gathered exactly when some listed top-level category files it directly. */
  lemma {:induction false} TopFilesHas(children: map<string, Node>, keys: seq<string>, x: Record)
    ensures x in TopFiles(children, keys) <==> exists k :: k in keys && k in children && x in children[k].files
  {
    if keys != [] {
      var init := keys[..|keys| - 1];
      var last := keys[|keys| - 1];
      TopFilesHas(children, init, x);
      assert keys == init + [last];
      if x in TopFiles(children, keys) {
        if x !in TopFiles(children, init) {
          assert last in children && x in children[last].files;
        } else {
          var k :| k in init && k in children && x in children[k].files;
          assert k in keys;
        }
      } else {
        forall k | k in keys && k in children ensures x !in children[k].files {
          if k != last {
            assert k in init;
          }
        }
      }
    }
  }

  /** Gathering reads nothing but the direct records of the listed categories. */
  lemma {:induction false} TopFilesSame(c1: map<string, Node>, c2: map<string, Node>, keys: seq<string>)
    requires forall k :: k in keys ==> Direct(c1, k) == Direct(c2, k)
    ensures TopFiles(c1, keys) == TopFiles(c2, keys)
  {
    if keys != [] {
      TopFilesSame(c1, c2, keys[..|keys| - 1]);
    }
  }

  /**
   * `all()` called on the root: enumerates the root's properties (`all`
   * first, then the top-level categories in creation order) and concatenates
   * every array among them. The `all` function contributes nothing, and no
   * array is ever descended into, so only records filed directly in a
   * top-level category are returned.
   */
  method All(root: Node) returns (values: seq<Record>)
    requires KeysListChildren(root) && AllKey !in root.children && root.files == [] && root.hasAll
    ensures values == TopFiles(root.children, root.keys)
    ensures forall x :: x in values <==> exists k :: k in root.children && x in root.children[k].files
  {
    values := [];
    var properties := [AllKey] + root.keys;
    var i := 0;
    while i < |properties|
      invariant 0 <= i <= |properties|
      invariant values == TopFiles(root.children, root.keys[..if i == 0 then 0 else i - 1])
    {
      var property := properties[i];
      if property in root.children {
        // an array: `values = values.concat(obj[property])`
        assert property == root.keys[i - 1];
        assert root.keys[..i] == root.keys[..i - 1] + [property];
        values := values + root.children[property].files;
      } else {
        // the `all` function: recursing into it enumerates no properties
        assert i == 0;
      }
      i := i + 1;
    }
    assert root.keys[..|root.keys|] == root.keys;
    forall x ensures x in values <==> exists k :: k in root.children && x in root.children[k].files {
      TopFilesHas(root.children, root.keys, x);
    }
  }

  /**
   * Filing a record two or more levels deep leaves what `all()` returns on
   * the root unchanged: the deeper record is never reached.
   */
  lemma {:induction false} AllSkipsNested(n: Node, path: seq<string>, data: Record)
    requires |path| >= 2
    ensures TopFiles(Pushed(n, path, data).children, Pushed(n, path, data).keys) == TopFiles(n.children, n.keys)
  {
    var r := Pushed(n, path, data);
    var f := path[0];
    var child := if f in n.children then n.children[f] else NewArray;
    assert r.children == n.children[f := Pushed(child, path[1..], data)];
    assert |path[1..]| >= 1;
    assert r.children[f].files == child.files;
    TopFilesSame(r.children, n.children, n.keys);
    if f !in n.children {
      assert r.keys[..|r.keys| - 1] == n.keys;
    }
  }

  /**
   * Appending `data` to the direct records of one listed category adds
   * exactly `data` to what is gathered.
   */
  lemma {:induction false} TopFilesAppend(c1: map<string, Node>, c2: map<string, Node>, keys: seq<string>,
                                         f: string, data: Record, x: Record)
    requires f in keys
    requires forall k :: k in keys ==> Direct(c2, k) == Direct(c1, k) + (if k == f then [data] else [])
    ensures x in TopFiles(c2, keys) <==> x in TopFiles(c1, keys) || x == data
  {
    var init, last := keys[..|keys| - 1], keys[|keys| - 1];
    assert keys == init + [last];
    assert TopFiles(c1, keys) == TopFiles(c1, init) + Direct(c1, last);
    assert TopFiles(c2, keys) == TopFiles(c2, init) + Direct(c2, last);
    assert last in keys;
    assert x in Direct(c2, last) <==> x in Direct(c1, last) || (last == f && x == data);
    if f in init {
      TopFilesAppend(c1, c2, init, f, data, x);
    } else {
      TopFilesSame(c1, c2, init);
    }
  }

  /**
   * Filing a record in a top-level category makes `all()` on the root return
   * it besides everything it returned before, and nothing else.
   */
  lemma {:induction false} AllGainsTopLevel(n: Node, path: seq<string>, data: Record, x: Record)
    requires KeysListChildren(n) && |path| == 1
    ensures x in TopFiles(Pushed(n, path, data).children, Pushed(n, path, data).keys)
        <==> x in TopFiles(n.children, n.keys) || x == data
  {
    var r := Pushed(n, path, data);
    var f := path[0];
    var child := if f in n.children then n.children[f] else NewArray;
    assert r.children == n.children[f := Pushed(child, path[1..], data)];
    assert path[1..] == [];
    assert Direct(r.children, f) == Direct(n.children, f) + [data];
    if f in n.children {
      assert r.keys == n.keys && f in n.keys;
      TopFilesAppend(n.children, r.children, n.keys, f, data, x);
    } else {
      assert r.keys == n.keys + [f];
      assert r.keys[..|r.keys| - 1] == n.keys;
      assert f !in n.keys;
      TopFilesSame(r.children, n.children, n.keys);
    }
  }
}
