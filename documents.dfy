/** Store documents, the failures the request handlers surface, and the
    response shaping of `serialize_doc` (main.py:22-30). */
module Documents {
  import opened Ids

  /** A BSON value as the handlers see it: a decoded document field. */
  datatype Value =
    | Null
    | Bool(b: bool)
    | Int(i: int)
    | Num(r: real)
    | Str(s: string)
    | Oid(id: ObjectId)
    | List(items: seq<Value>)
    | Object(fields: map<string, Value>)

  /** A top-level document: field name to value. */
  type Document = map<string, Value>

  /** What a handler fails with instead of returning a document. */
  datatype Failure =
    | NotFound(productId: string)        // HTTPException(404, "Product not found: ...")
    | StoreUnavailable                   // the store raised on an insert: a server error
    | PriceNotNumeric(productId: string) // float() raised on a product's price: a server error

  datatype Result<+T> = Ok(value: T) | Err(error: Failure)

  /** The values whose `str()` this model writes out. */
  predicate Printable(v: Value)
  {
    v.Null? || v.Bool? || v.Int? || v.Str? || v.Oid?
  }

  /** A document whose `_id`, if any, `str()` can write. */
  predicate Serializable(doc: Document)
  {
    "_id" in doc ==> Printable(doc["_id"])
  }

  /** A document none of whose top-level values is an ObjectId. */
  predicate NoOids(doc: Document)
  {
    forall k | k in doc :: !doc[k].Oid?
  }

  /** A document an insert can take as given: no `_id`, no `id`, no ObjectId value. */
  predicate Plain(doc: Document)
  {
    "_id" !in doc && "id" !in doc && NoOids(doc)
  }

  function DecimalDigit(d: nat): (c: char)
    requires d < 10
    ensures '0' <= c <= '9'
  {
    ('0' as int + d) as char
  }

  function NatText(n: nat): (s: string)
    ensures |s| > 0
  {
    if n < 10 then [DecimalDigit(n)] else NatText(n / 10) + [DecimalDigit(n % 10)]
  }

  /** Python's `str()` on the printable values. */
  function PyStr(v: Value): string
    requires Printable(v)
  {
    match v
    case Null => "None"
    case Bool(b) => if b then "True" else "False"
    case Int(i) => if i < 0 then "-" + NatText(-i) else NatText(i)
    case Str(s) => s
    case Oid(id) => IdText(id)
  }

  /** The value `serialize_doc` leaves in a top-level field: ObjectIds become their text. */
  function Stringified(v: Value): (w: Value)
    ensures !w.Oid?
    ensures v.Oid? ==> w == Str(IdText(v.id))
    ensures !v.Oid? ==> w == v
  {
    if v.Oid? then Str(IdText(v.id)) else v
  }

  /** The document after `_id` is popped and stored as text under `id`. */
  function Popped(doc: Document): (d: Document)
    requires Serializable(doc)
  {
    if "_id" in doc then (doc - {"_id"})["id" := Str(PyStr(doc["_id"]))] else doc
  }

  /** What `serialize_doc(doc)` returns. */
  function Serialized(doc: Document): (d: Document)
    requires Serializable(doc)
    ensures "_id" !in d
    ensures d.Keys == if "_id" in doc then doc.Keys - {"_id"} + {"id"} else doc.Keys
    ensures "_id" in doc ==> d["id"] == Str(PyStr(doc["_id"]))
    ensures forall k | k in doc && k != "_id" && !(k == "id" && "_id" in doc) :: d[k] == Stringified(doc[k])
    ensures forall k | k in d :: !d[k].Oid?
  {
    var p := Popped(doc);
    map k | k in p :: Stringified(p[k])
  }

  /** `serialize_doc`: copy the document, move `_id` to `id` as text, then
      rewrite every top-level ObjectId value as text. The input is a value,
      so it is left as it was. */
  method SerializeDoc(doc: Document) returns (d: Document)
    requires Serializable(doc)
    ensures d == Serialized(doc)
  {
    d := doc;
    if "_id" in d {
      var v := d["_id"];
      d := d - {"_id"};
      d := d["id" := Str(PyStr(v))];
    }
    ghost var popped := d;
    assert popped == Popped(doc);
    var pending := d.Keys;
    while pending != {}
      invariant pending <= popped.Keys
      invariant d.Keys == popped.Keys
      invariant forall k | k in popped :: d[k] == if k in pending then popped[k] else Stringified(popped[k])
      decreases pending
    {
      var k :| k in pending;
      if d[k].Oid? {
        d := d[k := Str(IdText(d[k].id))];
      }
      pending := pending - {k};
    }
    assert d == map k | k in popped :: Stringified(popped[k]);
  }

  /** A document that carries an ObjectId under `_id` comes back with that
      identifier's text under `id`, and the text parses back to it. */
  lemma SerializedIdRoundTrip(doc: Document, id: ObjectId)
    requires "_id" in doc && doc["_id"] == Oid(id)
    ensures "id" in Serialized(doc) && Serialized(doc)["id"].Str?
    ensures ParseId(Serialized(doc)["id"].s) == Some(id)
  {
    ParseIdText(id);
  }

  /** Serializing twice is the same as serializing once: the output holds no
      `_id` and no ObjectId value for a second pass to rewrite. */
  lemma SerializedIdempotent(doc: Document)
    requires Serializable(doc)
    ensures Serialized(Serialized(doc)) == Serialized(doc)
  {
    var d := Serialized(doc);
    assert Popped(d) == d;
  }
}
