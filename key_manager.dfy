/**
 * Models backend/key_manager.py; "lines" in the comments below refer to that file.
 *
 * The activation-record adapter: lists the records of the activation
 * collection whose customer name or e-mail starts with "girish" (ignoring
 * case), and switches one record's `is_active` flag on or off. Every failure
 * is collapsed to an empty list or to `false`.
 */
module KeyManager {
  import opened Wrappers
  import opened Json
  import opened Firestore

  const CollectionName := "activation_keys"
  const Prefix := "girish"
  const ActivationKeyField := "activation_key"
  const NameField := "customer_name"
  const EmailField := "customer_email"
  const IsActiveField := "is_active"

  // ---------------------------------------------------------------------------
  // Case folding (ASCII only)

  function LowerChar(c: char): char {
    if 'A' <= c <= 'Z' then (c as int + 32) as char else c
  }

  function UpperChar(c: char): char {
    if 'a' <= c <= 'z' then (c as int - 32) as char else c
  }

  function Lower(s: string): string {
    seq(|s|, i requires 0 <= i < |s| => LowerChar(s[i]))
  }

  predicate StartsWith(s: string, p: string) {
    |p| <= |s| && s[..|p|] == p
  }

  /** A character lowers to a lower-case letter exactly when it is that letter in either case. */
  lemma LowerCharIsLetter(c: char, p: char)
    requires 'a' <= p <= 'z'
    ensures LowerChar(c) == p <==> c == p || c == UpperChar(p)
  {
  }

  // ---------------------------------------------------------------------------
  // The filter

  /** What `.lower()` gives back: lowered text, or a lowered byte string.
      The bytes themselves are not kept: the filter only ever hands them to
      `startswith` with a text argument, which raises whatever they hold. */
  datatype Lowered = Text(s: string) | Binary

  /** `rec.get(field, '').lower()`: a missing field reads as "", a string is
      lowered, a byte string is lowered too, and any other stored value
      (null, a number, a list, ...) has no `lower()` and raises, which is
      `None` here. */
  function LoweredField(rec: Fields, field: string): Option<Lowered> {
    if field !in rec then Some(Text(""))
    else match rec[field]
      case Str(s) => Some(Text(Lower(s)))
      case Bytes(_) => Some(Binary)
      case _ => None
  }

  /** `lowered.startswith('girish')`: a byte string cannot be tested against
      a text prefix and raises, which is `None` here. */
  function PrefixTest(l: Lowered): Option<bool> {
    match l
    case Text(s) => Some(StartsWith(s, Prefix))
    case Binary => None
  }

  /** The field's `lower()` does not raise. */
  predicate Lowerable(rec: Fields, field: string) {
    field in rec ==> rec[field].Str? || rec[field].Bytes?
  }

  /** Neither the field's `lower()` nor its prefix test raises. */
  predicate Readable(rec: Fields, field: string) {
    field in rec ==> rec[field].Str?
  }

  /** Independent reading of the filter: the first six characters of the
      stored string spell the prefix, each letter in either case. */
  predicate SpellsPrefix(s: string) {
    |Prefix| <= |s| && forall i :: 0 <= i < |Prefix| ==> s[i] == Prefix[i] || s[i] == UpperChar(Prefix[i])
  }

  predicate FieldMatches(rec: Fields, field: string) {
    field in rec && rec[field].Str? && SpellsPrefix(rec[field].s)
  }

  lemma StartsWithLowerPrefix(s: string)
    ensures StartsWith(Lower(s), Prefix) <==> SpellsPrefix(s)
  {
    if |Prefix| <= |s| {
      forall i | 0 <= i < |Prefix|
        ensures Lower(s)[i] == Prefix[i] <==> s[i] == Prefix[i] || s[i] == UpperChar(Prefix[i])
      {
        LowerCharIsLetter(s[i], Prefix[i]);
      }
      if SpellsPrefix(s) {
        assert Lower(s)[..|Prefix|] == Prefix;
      }
      if StartsWith(Lower(s), Prefix) {
        forall i | 0 <= i < |Prefix|
          ensures s[i] == Prefix[i] || s[i] == UpperChar(Prefix[i])
        {
          assert Lower(s)[..|Prefix|][i] == Prefix[i];
        }
      }
    }
  }

  /** Lines 24-27: `None` when one of the two `lower()` calls raises, or when
      a prefix test that is evaluated raises; the e-mail is tested only when
      the name does not match (`or` short-circuits). Otherwise `Some(keep)`. */
  function Keep(rec: Fields): Option<bool> {
    var name := LoweredField(rec, NameField);
    var email := LoweredField(rec, EmailField);
    if name.None? || email.None? then None
    else EitherStartsWith(name.value, email.value)
  }

  /** Line 27's condition: `name.startswith(p) or email.startswith(p)`,
      evaluated left to right, so the e-mail is tested only when the name
      does not match. */
  function EitherStartsWith(name: Lowered, email: Lowered): Option<bool> {
    match PrefixTest(name)
    case None => None
    case Some(true) => Some(true)
    case Some(false) => PrefixTest(email)
  }

  /** The filter raises exactly when name or e-mail holds a value without
      `lower()`, when the name is a byte string, or when the name does not
      match and the e-mail is a byte string. It keeps a record exactly when
      both fields can be lowered and the name spells the prefix, or the name
      is text or missing and the e-mail spells it; a missing field never
      matches. */
  lemma KeepMeaning(rec: Fields)
    ensures Keep(rec).Some? <==>
      Readable(rec, NameField) && Lowerable(rec, EmailField) &&
      (FieldMatches(rec, NameField) || Readable(rec, EmailField))
    ensures Keep(rec) == Some(true) <==>
      Readable(rec, NameField) && Lowerable(rec, EmailField) &&
      (FieldMatches(rec, NameField) || FieldMatches(rec, EmailField))
  {
    LoweredFieldMatches(rec, NameField);
    LoweredFieldMatches(rec, EmailField);
  }

  /** Lowering fails exactly on a value that is neither text nor bytes; the
      prefix test of the lowered value fails exactly on bytes, and on text it
      holds exactly when the stored string spells the prefix in either case. */
  lemma LoweredFieldMatches(rec: Fields, field: string)
    ensures LoweredField(rec, field).Some? <==> Lowerable(rec, field)
    ensures LoweredField(rec, field).Some? ==>
      (PrefixTest(LoweredField(rec, field).value).Some? <==> Readable(rec, field))
    ensures LoweredField(rec, field).Some? ==>
      (PrefixTest(LoweredField(rec, field).value) == Some(true) <==> FieldMatches(rec, field))
  {
    if field in rec && rec[field].Str? {
      StartsWithLowerPrefix(rec[field].s);
    }
  }

  /** A byte-string e-mail is harmless once the name matches, and fatal
      otherwise; a byte-string name is always fatal. */
  lemma BytesFieldExamples()
    ensures Keep(map[NameField := Str("Girish"), EmailField := Bytes([120])]) == Some(true)
    ensures Keep(map[NameField := Str("alice"), EmailField := Bytes([120])]).None?
    ensures Keep(map[NameField := Bytes([103]), EmailField := Str("girish@example.com")]).None?
  {
    assert Lower("Girish") == "girish";
  }

  /** Lines 20-21: the document's fields with its id written over `activation_key`. */
  function Stamp(d: Doc): Fields {
    d.data[ActivationKeyField := Str(d.id)]
  }

  /** The stamped record carries the document id as `activation_key`, in place
      of any stored field of that name, and every other field unchanged. */
  lemma StampFields(d: Doc)
    ensures ActivationKeyField in Stamp(d) && Stamp(d)[ActivationKeyField] == Str(d.id)
    ensures forall k :: k != ActivationKeyField ==> (k in Stamp(d) <==> k in d.data)
    ensures forall k :: k != ActivationKeyField && k in d.data ==> Stamp(d)[k] == d.data[k]
  {
  }

  predicate Kept(d: Doc) {
    Keep(Stamp(d)) == Some(true)
  }

  /** What one streamed document adds to the listing. */
  function Listed(d: Doc): seq<Fields> {
    if Kept(d) then [Stamp(d)] else []
  }

  /** No document makes the filter raise. */
  predicate AllReadable(docs: seq<Doc>) {
    forall i :: 0 <= i < |docs| ==> Keep(Stamp(docs[i])).Some?
  }

  /** The stamped records of the kept documents, in stream order. */
  function Matching(docs: seq<Doc>): (r: seq<Fields>)
    ensures |r| <= |docs|
    ensures forall k :: 0 <= k < |r| ==> ActivationKeyField in r[k]
  {
    if docs == [] then []
    else
      var n := |docs| - 1;
      Matching(docs[..n]) + Listed(docs[n])
  }

  /** What a listing that reaches the end of the stream returns: all or nothing. */
  function ListResult(docs: seq<Doc>): seq<Fields> {
    if AllReadable(docs) then Matching(docs) else []
  }

  /** One more streamed document extends the listing by its record when
      the filter keeps it. */
  lemma ListingStep(docs: seq<Doc>, i: nat)
    requires i < |docs|
    ensures Matching(docs[..i + 1]) == Matching(docs[..i]) + Listed(docs[i])
    ensures AllReadable(docs[..i + 1]) <==> AllReadable(docs[..i]) && Keep(Stamp(docs[i])).Some?
  {
    assert docs[..i + 1][..i] == docs[..i];
  }

  // ---------------------------------------------------------------------------
  // Properties of the listing

  /** Every listed record is the stamped record of a kept document. */
  lemma {:induction false} MatchingSound(docs: seq<Doc>, k: nat)
    requires k < |Matching(docs)|
    ensures exists i :: 0 <= i < |docs| && Kept(docs[i]) && Matching(docs)[k] == Stamp(docs[i])
  {
    var n := |docs| - 1;
    if k < |Matching(docs[..n])| {
      MatchingSound(docs[..n], k);
      var i :| 0 <= i < n && Kept(docs[..n][i]) && Matching(docs[..n])[k] == Stamp(docs[..n][i]);
      assert docs[..n][i] == docs[i];
    } else {
      assert Matching(docs)[k] == Stamp(docs[n]);
    }
  }

  /** The listing of a prefix of the stream is a prefix of the listing. */
  lemma {:induction false} MatchingPrefix(docs: seq<Doc>, j: nat)
    requires j <= |docs|
    ensures Matching(docs[..j]) <= Matching(docs)
  {
    if j < |docs| {
      var n := |docs| - 1;
      assert docs[..j] == docs[..n][..j];
      MatchingPrefix(docs[..n], j);
    } else {
      assert docs[..j] == docs;
    }
  }

  /** A kept document's record sits right after the records of the documents
      streamed before it. */
  lemma MatchingPosition(docs: seq<Doc>, i: nat)
    requires i < |docs| && Kept(docs[i])
    ensures |Matching(docs[..i])| < |Matching(docs)|
    ensures Matching(docs)[|Matching(docs[..i])|] == Stamp(docs[i])
  {
    assert docs[..i + 1][..i] == docs[..i];
    assert Matching(docs[..i + 1]) == Matching(docs[..i]) + [Stamp(docs[i])];
    MatchingPrefix(docs, i + 1);
  }

  /** A document is listed exactly when the filter keeps it. */
  lemma MatchingComplete(docs: seq<Doc>, i: nat)
    requires i < |docs|
    ensures Stamp(docs[i]) in Matching(docs) <== Kept(docs[i])
  {
    if Kept(docs[i]) {
      MatchingPosition(docs, i);
    }
  }

  /** Kept documents are listed in the order they were streamed. */
  lemma MatchingOrder(docs: seq<Doc>, i: nat, j: nat)
    requires i < j < |docs| && Kept(docs[i]) && Kept(docs[j])
    ensures |Matching(docs[..i])| < |Matching(docs[..j])|
  {
    assert docs[..j][..i] == docs[..i];
    MatchingPosition(docs[..j], i);
  }

  /** Every listed record carries the id of a streamed document. */
  lemma KeysComeFromDocs(docs: seq<Doc>, k: nat)
    requires k < |Matching(docs)|
    ensures exists i :: 0 <= i < |docs| && Matching(docs)[k][ActivationKeyField] == Str(docs[i].id)
  {
    MatchingSound(docs, k);
  }

  /** Over a collection with unique ids, no activation key is listed twice. */
  lemma {:induction false} MatchingUniqueKeys(docs: seq<Doc>)
    requires UniqueIds(docs)
    ensures forall p, q :: 0 <= p < q < |Matching(docs)| ==>
      Matching(docs)[p][ActivationKeyField] != Matching(docs)[q][ActivationKeyField]
  {
    if docs != [] {
      var n := |docs| - 1;
      var front := docs[..n];
      assert UniqueIds(front);
      MatchingUniqueKeys(front);
      var m := Matching(docs);
      forall p, q | 0 <= p < q < |m|
        ensures m[p][ActivationKeyField] != m[q][ActivationKeyField]
      {
        if q >= |Matching(front)| {
          KeysComeFromDocs(front, p);
          var i :| 0 <= i < |front| && Matching(front)[p][ActivationKeyField] == Str(front[i].id);
          assert docs[i].id != docs[n].id;
        }
      }
    }
  }

  /** What the adapter returns carries the keys, and no key twice when the
      document ids are unique. */
  lemma ListResultKeys(docs: seq<Doc>)
    ensures forall k :: 0 <= k < |ListResult(docs)| ==> ActivationKeyField in ListResult(docs)[k]
    ensures UniqueIds(docs) ==>
      forall p, q :: 0 <= p < q < |ListResult(docs)| ==>
        ListResult(docs)[p][ActivationKeyField] != ListResult(docs)[q][ActivationKeyField]
  {
    if UniqueIds(docs) {
      MatchingUniqueKeys(docs);
    }
  }

  // ---------------------------------------------------------------------------
  // Interaction of the flag update with the listing

  /** A document after `is_active := v` was written on document `id`. */
  function SetActiveDoc(d: Doc, id: string, v: bool): Doc {
    if d.id == id then Doc(d.id, d.data[IsActiveField := Bool(v)]) else d
  }

  /** A listed record with `is_active := v` when its key is `id`. */
  function MarkOne(rec: Fields, id: string, v: bool): Fields {
    if ActivationKeyField in rec && rec[ActivationKeyField] == Str(id) then rec[IsActiveField := Bool(v)] else rec
  }

  function MarkActive(recs: seq<Fields>, id: string, v: bool): seq<Fields> {
    seq(|recs|, k requires 0 <= k < |recs| => MarkOne(recs[k], id, v))
  }

  lemma SetFieldIsSetActive(docs: seq<Doc>, id: string, v: bool, i: nat)
    requires i < |docs|
    ensures SetField(docs, id, IsActiveField, Bool(v))[i] == SetActiveDoc(docs[i], id, v)
  {
  }

  /** Writing `is_active` changes neither the filter's verdict nor anything
      but `is_active` in the stamped record. */
  lemma StampAfterSetActive(d: Doc, id: string, v: bool)
    ensures Keep(Stamp(SetActiveDoc(d, id, v))) == Keep(Stamp(d))
    ensures Stamp(SetActiveDoc(d, id, v)) == MarkOne(Stamp(d), id, v)
  {
    if d.id == id {
      var d' := SetActiveDoc(d, id, v);
      assert Stamp(d') == Stamp(d)[IsActiveField := Bool(v)];
      assert LoweredField(Stamp(d'), NameField) == LoweredField(Stamp(d), NameField);
      assert LoweredField(Stamp(d'), EmailField) == LoweredField(Stamp(d), EmailField);
    }
  }

  lemma ListedAfterSetActive(d: Doc, id: string, v: bool)
    ensures Listed(SetActiveDoc(d, id, v)) == MarkActive(Listed(d), id, v)
  {
    StampAfterSetActive(d, id, v);
  }

  lemma SetFieldPrefix(docs: seq<Doc>, n: nat, id: string, field: string, v: Value)
    requires n <= |docs|
    ensures SetField(docs, id, field, v)[..n] == SetField(docs[..n], id, field, v)
  {
  }

  lemma MarkActiveAppend(a: seq<Fields>, b: seq<Fields>, id: string, v: bool)
    ensures MarkActive(a + b, id, v) == MarkActive(a, id, v) + MarkActive(b, id, v)
  {
  }

  /** The update neither makes nor stops the filter raising on any document. */
  lemma ReadableAfterSetActive(docs: seq<Doc>, id: string, v: bool)
    ensures AllReadable(SetField(docs, id, IsActiveField, Bool(v))) == AllReadable(docs)
  {
    var docs' := SetField(docs, id, IsActiveField, Bool(v));
    forall i | 0 <= i < |docs|
      ensures Keep(Stamp(docs'[i])) == Keep(Stamp(docs[i]))
    {
      SetFieldIsSetActive(docs, id, v, i);
      StampAfterSetActive(docs[i], id, v);
    }
  }

  /** The filtered records after the update are the ones before it, with
      only the updated record's `is_active` changed: same records, same order. */
  lemma {:induction false} MatchingAfterSetActive(docs: seq<Doc>, id: string, v: bool)
    ensures Matching(SetField(docs, id, IsActiveField, Bool(v))) == MarkActive(Matching(docs), id, v)
  {
    if docs != [] {
      var n := |docs| - 1;
      var docs' := SetField(docs, id, IsActiveField, Bool(v));
      SetFieldPrefix(docs, n, id, IsActiveField, Bool(v));
      MatchingAfterSetActive(docs[..n], id, v);
      SetFieldIsSetActive(docs, id, v, n);
      ListedAfterSetActive(docs[n], id, v);
      MarkActiveAppend(Matching(docs[..n]), Listed(docs[n]), id, v);
      calc {
        Matching(docs');
        Matching(docs'[..n]) + Listed(docs'[n]);
        MarkActive(Matching(docs[..n]), id, v) + MarkActive(Listed(docs[n]), id, v);
        MarkActive(Matching(docs), id, v);
      }
    }
  }

  /** The record that carries key `id` comes out with `is_active` set to `v`. */
  lemma MarkedRecord(recs: seq<Fields>, k: nat, id: string, v: bool)
    requires k < |recs| && ActivationKeyField in recs[k] && recs[k][ActivationKeyField] == Str(id)
    ensures var m := MarkActive(recs, id, v)[k];
      ActivationKeyField in m && m[ActivationKeyField] == Str(id) && IsActiveField in m && m[IsActiveField] == Bool(v)
  {
  }

  /** Listing after an activate or deactivate of `id` gives the earlier
      listing with only that record's `is_active` changed. */
  lemma ListAfterSetActive(docs: seq<Doc>, id: string, v: bool)
    ensures ListResult(SetField(docs, id, IsActiveField, Bool(v))) == MarkActive(ListResult(docs), id, v)
  {
    ReadableAfterSetActive(docs, id, v);
    MatchingAfterSetActive(docs, id, v);
  }

  /** Round trip: after activating a listed key, the next listing shows that
      key's record with `is_active` true. */
  lemma ActivateThenList(docs: seq<Doc>, i: nat)
    requires i < |docs| && AllReadable(docs) && Kept(docs[i])
    ensures var after := ListResult(SetField(docs, docs[i].id, IsActiveField, Bool(true)));
      exists k :: 0 <= k < |after| && after[k][ActivationKeyField] == Str(docs[i].id) &&
                  IsActiveField in after[k] && after[k][IsActiveField] == Bool(true)
  {
    var id := docs[i].id;
    var before := Matching(docs);
    ListAfterSetActive(docs, id, true);
    assert ListResult(docs) == before;
    MatchingPosition(docs, i);
    StampFields(docs[i]);
    MarkedRecord(before, |Matching(docs[..i])|, id, true);
  }

  // ---------------------------------------------------------------------------
  // The adapter object

  class ActivationKeyManager {
    const collectionName: string
    /** The store client the module imported; `null` when initialisation failed. */
    const db: Database?

    constructor (db: Database?)
      ensures this.db == db && collectionName == CollectionName
    {
      this.db := db;
      collectionName := CollectionName;
    }

    /** Lines 8-34. With no client, or when the stream fails, the list is
        empty; otherwise it is the filtered listing, or empty when the filter
        raised on some document. */
    method GetAllActivations(fetchFails: bool) returns (activations: seq<Fields>)
      ensures activations == if db == null || fetchFails then [] else ListResult(db.Stream(collectionName))
      ensures forall k :: 0 <= k < |activations| ==> ActivationKeyField in activations[k]
      ensures db != null && db.Valid() ==>
        forall p, q :: 0 <= p < q < |activations| ==>
          activations[p][ActivationKeyField] != activations[q][ActivationKeyField]
    {
      if db == null {
        return [];
      }
      if fetchFails {
        return [];
      }
      var docs := db.Stream(collectionName);
      ListResultKeys(docs);
      activations := [];
      var i := 0;
      while i < |docs|
        invariant 0 <= i <= |docs|
        invariant AllReadable(docs[..i])
        invariant activations == Matching(docs[..i])
      {
        var data := docs[i].data;
        data := data[ActivationKeyField := Str(docs[i].id)];
        assert data == Stamp(docs[i]);
        var name := LoweredField(data, NameField);
        var email := LoweredField(data, EmailField);
        if name.None? || email.None? {
          assert Keep(Stamp(docs[i])).None?;
          return [];
        }
        var keep := EitherStartsWith(name.value, email.value);
        assert keep == Keep(Stamp(docs[i]));
        if keep.None? {
          return [];
        }
        ListingStep(docs, i);
        if keep.value {
          activations := activations + [data];
        }
        i := i + 1;
      }
      assert docs[..i] == docs;
    }

    /** Lines 36-51: writes `is_active := false` on document `key`. */
    method DeactivateKey(key: string, fault: bool) returns (ok: bool)
      modifies db
      ensures db == null ==> !ok
      ensures db != null ==> ok == (!fault && HasDoc(old(db.Stream(collectionName)), key))
      ensures db != null ==> db.collections ==
                             if ok then old(db.collections)[collectionName := SetField(old(db.Stream(collectionName)), key, IsActiveField, Bool(false))]
                             else old(db.collections)
      ensures db != null && old(db.Valid()) ==> db.Valid()
    {
      if db == null {
        return false;
      }
      ok := db.Update(collectionName, key, IsActiveField, Bool(false), fault);
    }

    /** Lines 53-68: writes `is_active := true` on document `key`. */
    method ActivateKey(key: string, fault: bool) returns (ok: bool)
      modifies db
      ensures db == null ==> !ok
      ensures db != null ==> ok == (!fault && HasDoc(old(db.Stream(collectionName)), key))
      ensures db != null ==> db.collections ==
                             if ok then old(db.collections)[collectionName := SetField(old(db.Stream(collectionName)), key, IsActiveField, Bool(true))]
                             else old(db.collections)
      ensures db != null && old(db.Valid()) ==> db.Valid()
    {
      if db == null {
        return false;
      }
      ok := db.Update(collectionName, key, IsActiveField, Bool(true), fault);
    }
  }
}
