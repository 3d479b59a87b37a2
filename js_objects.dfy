/**
 * The JavaScript values and objects the plugin works on: decoded front-matter
 * values, plain objects used as string-keyed dictionaries (the cache, the page
 * context), the per-file record objects, and the category arrays that
 * `pushData` consumes with `shift`.
 */
module JsObjects {

  datatype Option<+T> = None | Some(value: T)

  /** A value as the front-matter decoder produces it; its grammar is not modelled. */
  datatype Value =
    | Null
    | Bool(b: bool)
    | Num(n: int)
    | Str(s: string)
    | List(items: seq<Value>)
    | Mapping(fields: map<string, Value>)

  /** A JavaScript array of strings, as a decoded value. */
  function StrList(ss: seq<string>): Value
  {
    List(seq(|ss|, i requires 0 <= i < |ss| => Str(ss[i])))
  }

  /** A plain object used as a dictionary. Holders share it by reference. */
  class Dict<V> {
    var entries: map<string, V>

    constructor ()
      ensures entries == map[]
    {
      entries := map[];
    }

    /** `object[key] = value` */
    method Set(key: string, value: V)
      modifies this
      ensures entries == old(entries)[key := value]
    {
      entries := entries[key := value];
    }

    /** `delete object[key]` */
    method Delete(key: string)
      modifies this
      ensures entries == old(entries) - {key}
    {
      entries := entries - {key};
    }

    /** Copies every property of `source` onto this object, overwriting clashes. */
    method Assign(source: map<string, V>)
      modifies this
      ensures entries == old(entries) + source
    {
      entries := entries + source;
    }
  }

  /**
   * The object a file's front matter decodes to, after the plugin has added
   * `_categories` and `_url`; the post-loader later adds `content`. The cache
   * and the site tree hold the very same object.
   */
  class Record {
    var fields: map<string, Value>

    constructor (fields: map<string, Value>)
      ensures this.fields == fields
    {
      this.fields := fields;
    }

    /** `record[key] = value` */
    method Set(key: string, value: Value)
      modifies this
      ensures fields == old(fields)[key := value]
    {
      fields := fields[key := value];
    }
  }

  /** A JavaScript array of path segments that `shift` consumes from the front. */
  class Segments {
    var elems: seq<string>

    constructor (elems: seq<string>)
      ensures this.elems == elems
    {
      this.elems := elems;
    }

    /** `array.shift()`: removes and returns the first element; `undefined` on an empty array. */
    method Shift() returns (first: Option<string>)
      modifies this
      ensures old(elems) == [] ==> first == None && elems == []
      ensures old(elems) != [] ==> first == Some(old(elems)[0]) && elems == old(elems)[1..]
    {
      if elems == [] {
        first := None;
      } else {
        first := Some(elems[0]);
        elems := elems[1..];
      }
    }
  }
}
