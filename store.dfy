/**
 * A collection of documents as the handlers see it: an ordered sequence in
 * which lookups return the first match, and the by-id operations the
 * handlers and hooks call.
 */
module Store {
  import opened Js

  /** The index of the first element satisfying p. */
  function FirstMatch<D>(s: seq<D>, p: D -> bool): (r: Option<nat>)
    ensures r.Some? ==> r.value < |s| && p(s[r.value])
    ensures r.Some? ==> forall j :: 0 <= j < r.value ==> !p(s[j])
    ensures r.None? ==> forall j :: 0 <= j < |s| ==> !p(s[j])
  {
    if s == [] then None
    else if p(s[0]) then Some(0)
    else match FirstMatch(s[1..], p)
      case None => None
      case Some(i) => Some(i + 1)
  }

  /** The position of the first document whose id is `id`. */
  function IndexOf<D>(docs: seq<D>, idOf: D -> string, id: string): (r: Option<nat>)
    ensures r.Some? ==> r.value < |docs| && idOf(docs[r.value]) == id
    ensures r.Some? ==> forall j :: 0 <= j < r.value ==> idOf(docs[j]) != id
    ensures r.None? ==> forall j :: 0 <= j < |docs| ==> idOf(docs[j]) != id
  {
    FirstMatch(docs, (d: D) => idOf(d) == id)
  }

  /** A unique index whose key equality is `sameKey` holds: no two
      documents share a key. */
  predicate KeysUnique<D>(docs: seq<D>, sameKey: (D, D) -> bool)
  {
    forall j, k :: 0 <= j < k < |docs| ==> !sameKey(docs[j], docs[k])
  }

  /** Writing `d` at position i would give it a key that another document
      already holds. */
  predicate KeyTaken<D>(docs: seq<D>, i: nat, d: D, sameKey: (D, D) -> bool)
  {
    exists j :: 0 <= j < |docs| && j != i && sameKey(docs[j], d)
  }

  /** An update the index does not refuse keeps the keys unique. */
  lemma UpdateKeepsKeysUnique<D>(docs: seq<D>, i: nat, d: D, sameKey: (D, D) -> bool)
    requires i < |docs| && KeysUnique(docs, sameKey) && !KeyTaken(docs, i, d, sameKey)
    requires forall a, b :: sameKey(a, b) == sameKey(b, a)
    ensures KeysUnique(docs[i := d], sameKey)
  {
    var n := docs[i := d];
    forall j, k | 0 <= j < k < |n|
      ensures !sameKey(n[j], n[k])
    {
      if k == i {
        assert n[j] == docs[j];
      } else if j == i {
        assert n[k] == docs[k] && sameKey(n[j], n[k]) == sameKey(docs[k], d);
      }
    }
  }

  /** Removing a document keeps the keys unique. */
  lemma RemoveKeepsKeysUnique<D>(docs: seq<D>, i: nat, sameKey: (D, D) -> bool)
    requires i < |docs| && KeysUnique(docs, sameKey)
    ensures KeysUnique(docs[..i] + docs[i + 1..], sameKey)
  {
    var n := docs[..i] + docs[i + 1..];
    forall j, k | 0 <= j < k < |n|
      ensures !sameKey(n[j], n[k])
    {
      var j' := if j < i then j else j + 1;
      var k' := if k < i then k else k + 1;
      assert n[j] == docs[j'] && n[k] == docs[k'];
    }
  }

  /** A document collection keyed by the id that `idOf` reads. */
  class Collection<D> {
    var docs: seq<D>
    const idOf: D -> string

    constructor (idOf: D -> string, docs: seq<D>)
      ensures this.idOf == idOf && this.docs == docs
    {
      this.idOf := idOf;
      this.docs := docs;
    }

    /** `findById`: the position of the document with that id, if any. */
    function IndexOfId(id: string): (r: Option<nat>)
      reads this
      ensures r.Some? ==> r.value < |docs| && idOf(docs[r.value]) == id
      ensures r.None? ==> forall j :: 0 <= j < |docs| ==> idOf(docs[j]) != id
    {
      IndexOf(docs, idOf, id)
    }

    function FindById(id: string): (r: Option<D>)
      reads this
      ensures r.Some? <==> exists j :: 0 <= j < |docs| && idOf(docs[j]) == id
      ensures r.Some? ==> idOf(r.value) == id
    {
      match IndexOfId(id)
      case None => None
      case Some(i) => Some(docs[i])
    }

    /** `findByIdAndDelete`: removes the document and returns it, or returns
        nothing and changes nothing. */
    method FindByIdAndDelete(id: string) returns (doc: Option<D>)
      modifies this
      ensures old(IndexOfId(id)).None? ==> doc.None? && docs == old(docs)
      ensures old(IndexOfId(id)).Some? ==>
                var i := old(IndexOfId(id)).value;
                doc == Some(old(docs)[i]) && docs == old(docs)[..i] + old(docs)[i + 1..]
    {
      var i := IndexOfId(id);
      if i.None? {
        return None;
      }
      doc := Some(docs[i.value]);
      docs := docs[..i.value] + docs[i.value + 1..];
    }

    /** `findByIdAndUpdate` with the default options: applies the update to
        that one document and returns the document as it was BEFORE the
        update; validators do not run. */
    method FindByIdAndUpdate(id: string, update: D -> D) returns (doc: Option<D>)
      modifies this
      ensures old(IndexOfId(id)).None? ==> doc.None? && docs == old(docs)
      ensures old(IndexOfId(id)).Some? ==>
                var i := old(IndexOfId(id)).value;
                doc == Some(old(docs)[i]) && docs == old(docs)[i := update(old(docs)[i])]
    {
      var i := IndexOfId(id);
      if i.None? {
        return None;
      }
      doc := Some(docs[i.value]);
      docs := docs[i.value := update(docs[i.value])];
    }

    /** `findByIdAndUpdate` on a collection with a unique index whose key
        equality is `sameKey`: an update that would give the document a key
        another document holds fails with the duplicate-key error, reported
        as `duplicate`, and changes nothing; any other update behaves as
        FindByIdAndUpdate. */
    method FindByIdAndUpdateUnique(id: string, update: D -> D, sameKey: (D, D) -> bool)
      returns (doc: Option<D>, duplicate: bool)
      modifies this
      ensures old(IndexOfId(id)).None? ==> doc.None? && !duplicate && docs == old(docs)
      ensures old(IndexOfId(id)).Some? ==>
                var i := old(IndexOfId(id)).value;
                duplicate == KeyTaken(old(docs), i, update(old(docs)[i]), sameKey)
                && (duplicate ==> doc.None? && docs == old(docs))
                && (!duplicate ==> doc == Some(old(docs)[i]) && docs == old(docs)[i := update(old(docs)[i])])
    {
      var i := IndexOfId(id);
      if i.None? {
        return None, false;
      }
      var d := update(docs[i.value]);
      duplicate := exists j :: 0 <= j < |docs| && j != i.value && sameKey(docs[j], d);
      if duplicate {
        return None, true;
      }
      doc := Some(docs[i.value]);
      docs := docs[i.value := d];
    }

    /** Writes a changed document back at its position. */
    method SaveAt(i: nat, d: D)
      requires i < |docs|
      modifies this
      ensures docs == old(docs)[i := d]
    {
      docs := docs[i := d];
    }

    method Insert(d: D)
      modifies this
      ensures docs == old(docs) + [d]
    {
      docs := docs + [d];
    }
  }
}
