/**
 * The persisted snapshot as an abstract keyed document, and the typed reads
 * the loaders perform on it. JSON text, pretty-printing and file access are
 * not modelled: a snapshot file is either absent, unparseable, or a parsed
 * top-level object.
 */
module Snapshot {
  import opened Vectors

  datatype Option<T> = None | Some(value: T)

  datatype JsonValue =
    | JNull
    | JBool(b: bool)
    | JNumber(n: real)
    | JString(s: string)
    | JArray(items: seq<JsonValue>)

  /** A top-level JSON object. */
  type Document = map<string, JsonValue>

  /**
   * What opening and parsing the snapshot path yields. `Unparseable` covers
   * both a parse error and a document whose top level is not an object: in
   * either case the loader fails before assigning any field.
   */
  datatype SnapshotFile = NoFile | Unparseable | Parsed(doc: Document)

  /** `at(key).get<string>()`: fails when the key is missing or not a string. */
  function ReadString(doc: Document, key: string): Option<string>
  {
    if key in doc && doc[key].JString? then Some(doc[key].s) else None
  }

  /** `at(key).get<float>()`: fails when the key is missing or not a number. */
  function ReadNumber(doc: Document, key: string): Option<real>
  {
    if key in doc && doc[key].JNumber? then Some(doc[key].n) else None
  }

  /** `at(key).get<bool>()`: fails when the key is missing or not a boolean. */
  function ReadBool(doc: Document, key: string): Option<bool>
  {
    if key in doc && doc[key].JBool? then Some(doc[key].b) else None
  }

  /**
   * Reading elements 0, 1 and 2 of `at(key)` as numbers. Indexing a null or a
   * short array pads it with nulls, which then fail the number conversion,
   * and indexing any other kind of value fails outright; so the read succeeds
   * exactly when the value is an array whose first three items are numbers.
   * Extra items are ignored.
   */
  function ReadVec3(doc: Document, key: string): Option<Vec3>
  {
    if key in doc && doc[key].JArray? && |doc[key].items| >= 3
       && doc[key].items[0].JNumber? && doc[key].items[1].JNumber? && doc[key].items[2].JNumber?
    then Some(Vec3(doc[key].items[0].n, doc[key].items[1].n, doc[key].items[2].n))
    else None
  }

  /** `at` on a missing key throws, whatever type is asked for. */
  lemma MissingKeyFailsEveryRead(doc: Document, key: string)
    requires key !in doc
    ensures ReadString(doc, key) == None && ReadNumber(doc, key) == None
    ensures ReadBool(doc, key) == None && ReadVec3(doc, key) == None
  {
  }

  /**
   * A scalar stored under a key reads back as itself, and asking for another
   * type fails.
   */
  lemma ScalarReadAfterWrite(doc: Document, key: string, s: string, n: real, b: bool)
    ensures ReadString(doc[key := JString(s)], key) == Some(s)
    ensures ReadNumber(doc[key := JNumber(n)], key) == Some(n)
    ensures ReadBool(doc[key := JBool(b)], key) == Some(b)
    ensures ReadNumber(doc[key := JString(s)], key) == None && ReadBool(doc[key := JString(s)], key) == None
    ensures ReadString(doc[key := JNumber(n)], key) == None && ReadBool(doc[key := JNumber(n)], key) == None
    ensures ReadString(doc[key := JBool(b)], key) == None && ReadNumber(doc[key := JBool(b)], key) == None
  {
  }

  /** Each read looks at its own key only: storing under another key changes nothing. */
  lemma ReadsAreLocal(doc: Document, other: string, v: JsonValue, key: string)
    requires other != key
    ensures ReadString(doc[other := v], key) == ReadString(doc, key)
    ensures ReadNumber(doc[other := v], key) == ReadNumber(doc, key)
    ensures ReadBool(doc[other := v], key) == ReadBool(doc, key)
    ensures ReadVec3(doc[other := v], key) == ReadVec3(doc, key)
  {
  }

  /**
   * A vector read takes the first three numbers of an array and ignores any
   * further items.
   */
  lemma Vec3ReadIgnoresExtraItems(doc: Document, key: string, x: real, y: real, z: real, rest: seq<JsonValue>)
    ensures ReadVec3(doc[key := JArray([JNumber(x), JNumber(y), JNumber(z)] + rest)], key) == Some(Vec3(x, y, z))
  {
  }

  /** An array of fewer than three items, null included, does not read as a vector. */
  lemma Vec3ReadNeedsThreeItems(doc: Document, key: string, items: seq<JsonValue>)
    requires |items| < 3
    ensures ReadVec3(doc[key := JArray(items)], key) == None
    ensures ReadVec3(doc[key := JNull], key) == None
  {
  }

  /** A vector written as a three-element array. */
  function Vec3Json(v: Vec3): JsonValue
  {
    JArray([JNumber(v.x), JNumber(v.y), JNumber(v.z)])
  }

  /** What is written is read back. */
  lemma ReadVec3Json(doc: Document, key: string, v: Vec3)
    requires key in doc && doc[key] == Vec3Json(v)
    ensures ReadVec3(doc, key) == Some(v)
  {
  }
}
