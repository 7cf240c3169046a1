/**
 * The values that the download pipeline keeps in the persistent key-value
 * store (localforage), and the JSON document that stands for the text of
 * the sample tier.
 */
module Json {
  import opened Wrappers

  /** A JSON document as `JSON.parse` returns it for the sample tier: `null`
      or an array of numbers. The text itself is represented by the document
      it denotes. */
  datatype Document = Null | Array(items: seq<real>)

  /** `JSON.stringify` of a sample array. */
  function Stringify(samples: seq<real>): (d: Document)
    ensures d.Array?
  {
    Array(samples)
  }

  /** `JSON.parse` read as `number[] | null`. */
  function Parse(d: Document): (r: Option<seq<real>>)
    ensures r.None? <==> d.Null?
  {
    match d
    case Null => None
    case Array(items) => Some(items)
  }

  /** Writing samples and parsing them back gives the same samples. */
  lemma ParseStringify(samples: seq<real>)
    ensures Parse(Stringify(samples)) == Some(samples)
  {
  }

  /** An array document is the encoding of what it parses to. */
  lemma StringifyParse(d: Document)
    requires d.Array?
    ensures Parse(d).Some? && Stringify(Parse(d).value) == d
  {
  }

  /** The text `"[]"` that the pipeline parses when the tier is absent. */
  const EmptyArray: Document := Array([])
}

module Storage {
  import opened Wrappers
  import Json

  newtype byte = x: int | 0 <= x < 256

  /** A binary blob: the body of a network response. */
  datatype Blob = Blob(bytes: seq<byte>)

  /** What a store entry holds: a Blob, an ArrayBuffer, or a string. */
  datatype Value =
    | BlobItem(blob: Blob)
    | BufferItem(bytes: seq<byte>)
    | TextItem(text: Json.Document)

  /** The store's contents at the time of a read. */
  type Store = map<string, Value>

  /** `getItem(key)`: the entry, or null when the key is absent. */
  function Get(store: Store, key: string): (v: Option<Value>)
    ensures v.Some? <==> key in store
    ensures v.Some? ==> v.value == store[key]
  {
    if key in store then Some(store[key]) else None
  }
}
