/**
 * The site tree as lib/index.js builds it one level below the root, where
 * each category is a JavaScript array: a name that is an element index
 * reads and writes an element of the array, any other name a property. This
 * shows where `pushData` as written departs from `Pushed`, which files every
 * sub-directory as a named category.
 */
module JsArrayTree {
  import opened JsObjects
  import opened SiteTree

  /** An element of a JavaScript array: a hole, a record, or a nested array. */
  datatype Slot = Hole | Rec(record: Record) | Arr(node: ArrayNode)

  /**
   * A JavaScript array: its elements, and its named properties that hold
   * arrays (the `all` property, a function, is not represented).
   */
  datatype ArrayNode = ArrayNode(slots: seq<Slot>, named: map<string, ArrayNode>)

  /** `[]` */
  const EmptyArray: ArrayNode := ArrayNode([], map[])

  /** An array holding just `data`, as `pushData` leaves a fresh `[]`. */
  function Single(data: Record): ArrayNode
  {
    ArrayNode([Rec(data)], map[])
  }

  /** `n` holes. */
  function Holes(n: nat): (r: seq<Slot>)
    ensures |r| == n && forall j :: 0 <= j < n ==> r[j] == Hole
  {
    seq(n, _ => Hole)
  }

  /** `array[i] = x`: an array shorter than `i + 1` grows to it, the gap left as holes. */
  function SetSlot(slots: seq<Slot>, i: nat, x: Slot): (r: seq<Slot>)
    ensures |r| == if i < |slots| then |slots| else i + 1
    ensures r[i] == x
    ensures forall j :: 0 <= j < |r| && j != i ==> r[j] == if j < |slots| then slots[j] else Hole
  {
    if i < |slots| then slots[i := x] else slots + Holes(i - |slots|) + [x]
  }

  /**
   * Whether `locals.all = this.all` has run on the array: in this model a
   * record enters an array only through `locals.push(data)`, which is
   * followed at once by that assignment.
   */
  predicate CarriesAll(node: ArrayNode)
  {
    exists j :: 0 <= j < |node.slots| && node.slots[j].Rec?
  }

  /**
   * `pushData([sub], top, data)` as written, on the array `top` of a
   * top-level category; `None` when it throws. `!locals[f]` reads an element
   * when `sub` is an index: a hole is replaced by a fresh `[]`, an array is
   * descended into, and a record is descended into too, where `push` is not
   * a function. The name `all` on an array that carries the `all` function
   * reaches that function, which is truthy and has no `push` either.
   */
  function PushBelow(top: ArrayNode, sub: string, data: Record): Option<ArrayNode>
    requires IsArrayIndex(sub) || (sub !in ArrayPrototypeNames && sub !in ObjectPrototypeNames)
  {
    if IsArrayIndex(sub) then
      var i := DecimalValue(sub);
      var slot := if i < |top.slots| then top.slots[i] else Hole;
      match slot
      case Hole => Some(top.(slots := SetSlot(top.slots, i, Arr(Single(data)))))
      case Arr(c) => Some(top.(slots := SetSlot(top.slots, i, Arr(c.(slots := c.slots + [Rec(data)])))))
      case Rec(_) => None
    else if sub == AllKey && CarriesAll(top) then None
    else
      var c := if sub in top.named then top.named[sub] else EmptyArray;
      Some(top.(named := top.named[sub := c.(slots := c.slots + [Rec(data)])]))
  }

  /** Whether `x` is an element of one of the top-level arrays named in `keys`. */
  predicate InListed(children: map<string, ArrayNode>, keys: seq<string>, x: Slot)
  {
    exists m :: 0 <= m < |keys| && keys[m] in children && x in children[keys[m]].slots
  }

  /**
   * What `all()` on the root returns: the elements of every top-level array,
   * in `keys` order, holes and nested arrays included; nothing else, and
   * nothing left out.
   */
  function AllSlots(children: map<string, ArrayNode>, keys: seq<string>): (r: seq<Slot>)
    ensures forall k :: 0 <= k < |r| ==> InListed(children, keys, r[k])
    ensures forall m, i :: 0 <= m < |keys| && keys[m] in children && 0 <= i < |children[keys[m]].slots| ==>
      children[keys[m]].slots[i] in r
  {
    if keys == [] then []
    else
      var init, last := keys[..|keys| - 1], keys[|keys| - 1];
      var front := AllSlots(children, init);
      var back := if last in children then children[last].slots else [];
      assert forall k :: 0 <= k < |front| ==> (front + back)[k] == front[k] && InListed(children, keys, front[k]) by {
        forall k | 0 <= k < |front|
          ensures InListed(children, keys, front[k])
        {
          assert InListed(children, init, front[k]);
          var m :| 0 <= m < |init| && init[m] in children && front[k] in children[init[m]].slots;
          assert init[m] == keys[m];
        }
      }
      assert forall j :: 0 <= j < |back| ==> InListed(children, keys, back[j]) by {
        forall j | 0 <= j < |back|
          ensures InListed(children, keys, back[j])
        {
          assert back[j] in children[keys[|keys| - 1]].slots;
        }
      }
      front + back
  }

  /**
   * As written, a sub-directory whose name is an element index past the end
   * of its parent's array becomes an element of that array, after a run of
   * holes: `all()` on the root returns the holes and the nested array, where
   * `AllSkipsNested` has it return nothing new.
   */
  lemma IndexNameBecomesElement(top: string, slots: seq<Slot>, named: map<string, ArrayNode>,
                                sub: string, data: Record)
    requires IsArrayIndex(sub) && |slots| <= DecimalValue(sub)
    ensures var after := PushBelow(ArrayNode(slots, named), sub, data);
      && after == Some(ArrayNode(slots + Holes(DecimalValue(sub) - |slots|) + [Arr(Single(data))], named))
      && AllSlots(map[top := after.value], [top])
         == slots + Holes(DecimalValue(sub) - |slots|) + [Arr(Single(data))]
  {
    var after := ArrayNode(slots + Holes(DecimalValue(sub) - |slots|) + [Arr(Single(data))], named);
    assert AllSlots(map[top := after], [top]) == AllSlots(map[top := after], []) + after.slots;
  }

  /**
   * `root/blog/a.md` filed, then `root/blog/2020/post.md`: as written, the
   * array of `blog` grows to 2021 elements, the second file's record nested
   * in the last one.
   */
  lemma {:induction false} BlogYearExample(a: Record, post: Record)
    ensures PushBelow(ArrayNode([Rec(a)], map[]), "2020", post)
         == Some(ArrayNode([Rec(a)] + Holes(2019) + [Arr(Single(post))], map[]))
  {
    var year := "2020";
    assert year[..3] == "202" && year[..3][..2] == "20" && year[..3][..2][..1] == "2";
    assert DecimalValue("2") == 2 by { assert "2"[..0] == ""; }
    assert DecimalValue("20") == 20;
    assert DecimalValue("202") == 202;
    assert DecimalValue(year) == 2020;
    IndexNameBecomesElement("blog", [Rec(a)], map[], year, post);
  }

  /**
   * As written, a sub-directory whose name is the index of a record already
   * filed in its parent makes `pushData` descend into that record and call
   * `push` on it, which throws; the file is never cached.
   */
  lemma IndexNameOverRecordThrows(slots: seq<Slot>, named: map<string, ArrayNode>, sub: string, data: Record)
    requires IsArrayIndex(sub) && DecimalValue(sub) < |slots| && slots[DecimalValue(sub)].Rec?
    ensures PushBelow(ArrayNode(slots, named), sub, data) == None
  {
  }

  /**
   * As written, a sub-directory named `all` under an array that already holds
   * a record reaches the `all` function attached to that array and calls
   * `push` on it, which throws; the file is never cached.
   */
  lemma AllNameOverRecordThrows(slots: seq<Slot>, named: map<string, ArrayNode>, j: nat, data: Record)
    requires j < |slots| && slots[j].Rec?
    ensures PushBelow(ArrayNode(slots, named), AllKey, data) == None
  {
  }

  /**
   * For a sub-directory with a plain name, `pushData` as written files `data`
   * in a named array, unless the name is `all` and the parent carries the
   * `all` function: the parent's elements stay as they were, so `all()` on
   * the root is unchanged, and the named child gains `data` as its last
   * element, as `Pushed` has it for a named category one level down.
   */
  lemma PlainNameAgrees(top: string, slots: seq<Slot>, named: map<string, ArrayNode>, sub: string, data: Record)
    requires !IsArrayIndex(sub) && sub !in ArrayPrototypeNames && sub !in ObjectPrototypeNames
    ensures var after := PushBelow(ArrayNode(slots, named), sub, data);
      after.Some? <==> !(sub == AllKey && CarriesAll(ArrayNode(slots, named)))
    ensures var after := PushBelow(ArrayNode(slots, named), sub, data);
      after.Some? ==>
      && after.value.slots == slots
      && sub in after.value.named
      && after.value.named[sub].slots
         == (if sub in named then named[sub].slots else []) + [Rec(data)]
      && AllSlots(map[top := after.value], [top]) == AllSlots(map[top := ArrayNode(slots, named)], [top])
  {
    if sub == AllKey && CarriesAll(ArrayNode(slots, named)) {
      return;
    }
    var after := PushBelow(ArrayNode(slots, named), sub, data).value;
    assert AllSlots(map[top := after], [top]) == AllSlots(map[top := after], []) + after.slots;
    assert AllSlots(map[top := ArrayNode(slots, named)], [top])
      == AllSlots(map[top := ArrayNode(slots, named)], []) + slots;
  }
}
