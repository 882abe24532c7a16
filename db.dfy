/**
 * Vector-store bookkeeping (src/db.py) over an in-memory copy of the two
 * tables PGVector keeps: `langchain_pg_collection` (a name and a uuid per
 * collection) and `langchain_pg_embedding` (one row per stored chunk, with
 * its collection's uuid and its `jsonb` metadata). Queries are functions of
 * a snapshot of the tables; `delete_source` changes a connection's tables.
 */
module Db {
  import opened Wrappers
  import opened Values
  import opened Seqs

  /** A collection's uuid. psycopg returns a `UUID` object, which is never falsy. */
  datatype Uuid = Uuid(hex: string)

  /** A row of `langchain_pg_collection`. */
  datatype CollectionRow = CollectionRow(name: string, uuid: Uuid)

  /** A row of `langchain_pg_embedding`; the embedding vector itself is left out. */
  datatype EmbeddingRow = EmbeddingRow(id: string, collectionId: Uuid, document: string, cmetadata: Metadata)

  /** The contents of both tables, in the order a scan returns them. */
  datatype Tables = Tables(collections: seq<CollectionRow>, embeddings: seq<EmbeddingRow>)

  /** The position of the first collection row with this name, or `|rows|`. */
  function FirstNamed(rows: seq<CollectionRow>, name: string): (k: nat)
    ensures k <= |rows|
    ensures forall j :: 0 <= j < k ==> rows[j].name != name
    ensures k < |rows| ==> rows[k].name == name
  {
    if rows == [] then 0
    else if rows[0].name == name then 0
    else 1 + FirstNamed(rows[1..], name)
  }

  /** `get_collection_id`: `SELECT uuid ... WHERE name = %s LIMIT 1`. */
  function GetCollectionId(t: Tables, name: string): (r: Option<Uuid>)
    ensures r.None? <==> forall i :: 0 <= i < |t.collections| ==> t.collections[i].name != name
    ensures r.Some? ==>
      exists i :: 0 <= i < |t.collections| && t.collections[i].name == name && t.collections[i].uuid == r.value
  {
    var k := FirstNamed(t.collections, name);
    if k < |t.collections| then Some(t.collections[k].uuid) else None
  }

  /** An embedding row of the collection with this uuid. */
  predicate InCollection(row: EmbeddingRow, cid: Uuid) {
    row.collectionId == cid
  }

  /** A row matched by `collection_id = cid AND cmetadata->>'source' = path`. */
  predicate IsSourceRow(row: EmbeddingRow, cid: Uuid, path: string) {
    row.collectionId == cid && Field(row.cmetadata, "source") == Some(path)
  }

  /** `SELECT COUNT(*) ... WHERE collection_id = cid`. */
  function CountInCollection(rows: seq<EmbeddingRow>, cid: Uuid): (n: nat)
    ensures n <= |rows|
    ensures n > 0 <==> exists i :: 0 <= i < |rows| && InCollection(rows[i], cid)
  {
    if rows == [] then 0
    else
      var rest := CountInCollection(rows[1..], cid);
      assert forall i :: 1 <= i < |rows| ==> rows[i] == rows[1..][i - 1];
      (if InCollection(rows[0], cid) then 1 else 0) + rest
  }

  /** `SELECT COUNT(*) ... WHERE collection_id = cid AND cmetadata->>'source' = path`. */
  function CountOfSource(rows: seq<EmbeddingRow>, cid: Uuid, path: string): (n: nat)
    ensures n <= |rows|
    ensures n > 0 <==> exists i :: 0 <= i < |rows| && IsSourceRow(rows[i], cid, path)
  {
    if rows == [] then 0
    else
      var rest := CountOfSource(rows[1..], cid, path);
      assert forall i :: 1 <= i < |rows| ==> rows[i] == rows[1..][i - 1];
      (if IsSourceRow(rows[0], cid, path) then 1 else 0) + rest
  }

  /** `collection_has_any`: the named collection exists and holds some row. */
  function CollectionHasAny(t: Tables, name: string): (b: bool)
    ensures GetCollectionId(t, name).None? ==> !b
    ensures b <==> (exists i :: 0 <= i < |t.embeddings| &&
                      GetCollectionId(t, name) == Some(t.embeddings[i].collectionId))
  {
    match GetCollectionId(t, name)
    case None => false
    case Some(cid) => CountInCollection(t.embeddings, cid) > 0
  }

  /** `collection_has_source`: some row of the named collection has this `source`. */
  function CollectionHasSource(t: Tables, name: string, path: string): (b: bool)
    ensures GetCollectionId(t, name).None? ==> !b
    ensures b <==> (exists i :: 0 <= i < |t.embeddings| &&
                      GetCollectionId(t, name) == Some(t.embeddings[i].collectionId) &&
                      Field(t.embeddings[i].cmetadata, "source") == Some(path))
  {
    match GetCollectionId(t, name)
    case None => false
    case Some(cid) => CountOfSource(t.embeddings, cid, path) > 0
  }

  /** A collection that holds a given source holds something. */
  lemma HasSourceImpliesHasAny(t: Tables, name: string, path: string)
    ensures CollectionHasSource(t, name, path) ==> CollectionHasAny(t, name)
  {
  }

  /** The rows a `DELETE ... WHERE collection_id = cid AND cmetadata->>'source' = path` keeps. */
  function RemoveSource(rows: seq<EmbeddingRow>, cid: Uuid, path: string): (r: seq<EmbeddingRow>)
    ensures |r| == |rows| - CountOfSource(rows, cid, path)
    ensures forall row :: row in r <==> row in rows && !IsSourceRow(row, cid, path)
    ensures IsSubsequence(r, rows)
  {
    if rows == [] then []
    else
      var rest := RemoveSource(rows[1..], cid, path);
      if IsSourceRow(rows[0], cid, path) then
        rest
      else
        assert ([rows[0]] + rest)[1..] == rest;
        [rows[0]] + rest
  }

  /** The tables after `delete_source(conn, name, path)` has committed. */
  function AfterDeleteSource(t: Tables, name: string, path: string): (r: Tables)
    ensures r.collections == t.collections
    ensures GetCollectionId(t, name).None? ==> r == t
    ensures GetCollectionId(t, name).Some? ==>
      forall row :: row in r.embeddings <==>
        row in t.embeddings && !IsSourceRow(row, GetCollectionId(t, name).value, path)
    ensures GetCollectionId(t, name).Some? ==>
      |r.embeddings| == |t.embeddings| - CountOfSource(t.embeddings, GetCollectionId(t, name).value, path)
    ensures IsSubsequence(r.embeddings, t.embeddings)
  {
    match GetCollectionId(t, name)
    case None =>
      assert IsSubsequence(t.embeddings, t.embeddings) by { SubsequenceReflexive(t.embeddings); }
      t
    case Some(cid) => t.(embeddings := RemoveSource(t.embeddings, cid, path))
  }

  lemma {:induction false} SubsequenceReflexive<T>(s: seq<T>)
    ensures IsSubsequence(s, s)
  {
    if s != [] { SubsequenceReflexive(s[1..]); }
  }

  /** After deleting a source from a collection, the collection no longer holds it. */
  lemma DeleteThenSourceAbsent(t: Tables, name: string, path: string)
    ensures !CollectionHasSource(AfterDeleteSource(t, name, path), name, path)
  {
    var r := AfterDeleteSource(t, name, path);
    forall i | 0 <= i < |r.embeddings|
      ensures !(GetCollectionId(r, name) == Some(r.embeddings[i].collectionId) &&
                Field(r.embeddings[i].cmetadata, "source") == Some(path))
    {
      assert r.embeddings[i] in r.embeddings;
    }
  }

  /** Deleting one source leaves every other source of that collection as it was. */
  lemma DeleteKeepsOtherSources(t: Tables, name: string, p: string, q: string)
    requires p != q
    ensures CollectionHasSource(AfterDeleteSource(t, name, p), name, q) == CollectionHasSource(t, name, q)
  {
    if GetCollectionId(t, name).Some? {
      var cid := GetCollectionId(t, name).value;
      SourceCountsAgree(AfterDeleteSource(t, name, p).embeddings, t.embeddings, cid, q);
    }
  }

  /** Two row sequences holding the same rows with source `q` in collection `cid` agree on that source. */
  lemma SourceCountsAgree(a: seq<EmbeddingRow>, b: seq<EmbeddingRow>, cid: Uuid, q: string)
    requires forall row :: IsSourceRow(row, cid, q) ==> (row in a <==> row in b)
    ensures (CountOfSource(a, cid, q) > 0) == (CountOfSource(b, cid, q) > 0)
  {
    if CountOfSource(a, cid, q) > 0 {
      var i :| 0 <= i < |a| && IsSourceRow(a[i], cid, q);
      assert a[i] in b;
    }
    if CountOfSource(b, cid, q) > 0 {
      var j :| 0 <= j < |b| && IsSourceRow(b[j], cid, q);
      assert b[j] in a;
    }
  }

  /** Two row sequences holding the same rows of collection `cid` answer both counts alike. */
  lemma CountsAgree(a: seq<EmbeddingRow>, b: seq<EmbeddingRow>, cid: Uuid, q: string)
    requires forall row :: InCollection(row, cid) ==> (row in a <==> row in b)
    ensures (CountInCollection(a, cid) > 0) == (CountInCollection(b, cid) > 0)
    ensures (CountOfSource(a, cid, q) > 0) == (CountOfSource(b, cid, q) > 0)
  {
    if CountInCollection(a, cid) > 0 {
      var i :| 0 <= i < |a| && InCollection(a[i], cid);
      assert a[i] in b;
    }
    if CountInCollection(b, cid) > 0 {
      var j :| 0 <= j < |b| && InCollection(b[j], cid);
      assert b[j] in a;
    }
    SourceCountsAgree(a, b, cid, q);
  }

  /**
   * Deleting from one collection changes no query about a collection with a
   * different uuid.
   */
  lemma DeleteKeepsOtherCollections(t: Tables, name: string, path: string, other: string, q: string)
    requires GetCollectionId(t, other) != GetCollectionId(t, name)
    ensures CollectionHasAny(AfterDeleteSource(t, name, path), other) == CollectionHasAny(t, other)
    ensures CollectionHasSource(AfterDeleteSource(t, name, path), other, q) == CollectionHasSource(t, other, q)
  {
    var r := AfterDeleteSource(t, name, path);
    if GetCollectionId(t, name).Some? && GetCollectionId(t, other).Some? {
      var cid := GetCollectionId(t, other).value;
      CountsAgree(r.embeddings, t.embeddings, cid, q);
    }
  }

  /** A connection whose tables `conn.execute` reads and changes. */
  class Connection {
    var collections: seq<CollectionRow>
    var embeddings: seq<EmbeddingRow>

    /** What a query run now on this connection sees. */
    function Snapshot(): Tables
      reads this
    {
      Tables(collections, embeddings)
    }

    constructor (t: Tables)
      ensures Snapshot() == t
    {
      collections := t.collections;
      embeddings := t.embeddings;
    }

    /**
     * `delete_source`: with no collection of that name, return without
     * touching anything; otherwise delete that collection's rows whose
     * `source` is `path`, and commit.
     */
    method DeleteSource(name: string, path: string)
      modifies this
      ensures Snapshot() == AfterDeleteSource(old(Snapshot()), name, path)
      ensures collections == old(collections)
      ensures GetCollectionId(old(Snapshot()), name).None? ==> embeddings == old(embeddings)
      ensures !CollectionHasSource(Snapshot(), name, path)
    {
      var cid := GetCollectionId(Snapshot(), name);
      if cid.None? {
        return;
      }
      embeddings := RemoveSource(embeddings, cid.value, path);
      DeleteThenSourceAbsent(old(Snapshot()), name, path);
    }
  }
}
