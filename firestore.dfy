/**
 * The remote document store, reduced to what the service uses: named
 * collections of documents streamed in the store's own order, and a partial
 * update of one field of one existing document.
 */
module Firestore {
  import opened Json

  /** One stored document: its id (its key in the collection) and its fields. */
  datatype Doc = Doc(id: string, data: Fields)

  /** Within one collection a document id names at most one document. */
  predicate UniqueIds(docs: seq<Doc>) {
    forall i, j :: 0 <= i < j < |docs| ==> docs[i].id != docs[j].id
  }

  predicate HasDoc(docs: seq<Doc>, id: string) {
    exists i :: 0 <= i < |docs| && docs[i].id == id
  }

  /** Partial update `{field: v}` of the document named `id`. */
  function SetField(docs: seq<Doc>, id: string, field: string, v: Value): (r: seq<Doc>)
    ensures |r| == |docs|
    ensures forall i :: 0 <= i < |docs| ==> r[i].id == docs[i].id
    ensures forall i :: 0 <= i < |docs| && docs[i].id != id ==> r[i] == docs[i]
    ensures forall i :: 0 <= i < |docs| && docs[i].id == id ==> r[i].data == docs[i].data[field := v]
  {
    if docs == [] then []
    else
      var d := docs[0];
      [if d.id == id then Doc(d.id, d.data[field := v]) else d] + SetField(docs[1..], id, field, v)
  }

  /** The update leaves the set of document ids, and so their uniqueness, as it was. */
  lemma SetFieldKeepsIds(docs: seq<Doc>, id: string, field: string, v: Value, other: string)
    ensures HasDoc(SetField(docs, id, field, v), other) == HasDoc(docs, other)
    ensures UniqueIds(SetField(docs, id, field, v)) == UniqueIds(docs)
  {
    var r := SetField(docs, id, field, v);
    if HasDoc(docs, other) {
      var i :| 0 <= i < |docs| && docs[i].id == other;
      assert r[i].id == other;
    }
    if HasDoc(r, other) {
      var i :| 0 <= i < |r| && r[i].id == other;
      assert docs[i].id == other;
    }
  }

  /** Writing the same value twice leaves the store as one write left it. */
  lemma SetFieldIdempotent(docs: seq<Doc>, id: string, field: string, v: Value)
    ensures SetField(SetField(docs, id, field, v), id, field, v) == SetField(docs, id, field, v)
  {
    var once := SetField(docs, id, field, v);
    var twice := SetField(once, id, field, v);
    forall i | 0 <= i < |docs|
      ensures twice[i] == once[i]
    {
      if docs[i].id == id {
        assert once[i].data[field := v] == once[i].data;
      }
    }
  }

  /** The client's handle on the store. */
  class Database {
    var collections: map<string, seq<Doc>>

    ghost predicate Valid()
      reads this
    {
      forall c :: c in collections ==> UniqueIds(collections[c])
    }

    constructor (collections: map<string, seq<Doc>>)
      ensures this.collections == collections
    {
      this.collections := collections;
    }

    /** `collection(name).stream()`: the documents in store order; a
        collection that does not exist streams nothing. */
    function Stream(name: string): seq<Doc>
      reads this
    {
      if name in collections then collections[name] else []
    }

    /** `collection(name).document(id).update({field: v})`. The update fails
        (raises) when the document does not exist, or when the call itself
        fails (`fault`: network, credentials, quota); a failed update writes
        nothing. */
    method Update(name: string, id: string, field: string, v: Value, fault: bool) returns (ok: bool)
      modifies this
      ensures ok == (!fault && HasDoc(old(Stream(name)), id))
      ensures collections ==
        if ok then old(collections)[name := SetField(old(Stream(name)), id, field, v)]
        else old(collections)
      ensures old(Valid()) ==> Valid()
    {
      var docs := Stream(name);
      ok := !fault && HasDoc(docs, id);
      if ok {
        SetFieldKeepsIds(docs, id, field, v, id);
        collections := collections[name := SetField(docs, id, field, v)];
      }
    }
  }
}
