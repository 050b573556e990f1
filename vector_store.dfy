/** The FAISS-backed document store of rag.py: a flat L2 index of sentence
    embeddings kept in step with a list of the stored texts, both persisted
    under data/vectors. The embedding model and the nearest-neighbour
    search are oracles. */
module VectorStore {
  import opened Wrappers

  /** `index.search(..., k=10)`. */
  const TopK := 10

  /** `HTTPException(status_code=400, detail="Missing 'text'")`. */
  const MissingText := "Missing 'text'"

  /** An unhandled exception inside an endpoint. */
  const ServerError := "Internal Server Error"

  type Vector = seq<real>

  /** `model.encode([text])[0]`. */
  type Embedder = string -> Vector

  /** `index.search(np.array([q]), k=10)[1][0]`: the ids of the nearest
      stored vectors, nearest first. */
  type Search = (seq<Vector>, Vector) -> seq<int>

  function Min(a: nat, b: nat): nat {
    if a <= b then a else b
  }

  /** What a flat FAISS index answers for `k = 10` over `n` vectors: ten ids,
      the first `min(10, n)` of them real positions, the rest padded with
      `-1`. */
  predicate FaissResult(ids: seq<int>, n: nat) {
    |ids| == TopK && ValidThenPadding(ids, n, Min(TopK, n))
  }

  /** The first `m` ids are positions below `n`; the remaining ones are `-1`. */
  predicate ValidThenPadding(ids: seq<int>, n: nat, m: nat) {
    && m <= |ids|
    && (forall k :: 0 <= k < m ==> 0 <= ids[k] < n)
    && (forall k :: m <= k < |ids| ==> ids[k] == -1)
  }

  /** `docs_store[i]` with Python's indexing: a negative `i` counts from the
      end. */
  function PyIndex(docs: seq<string>, i: int): string
    requires -|docs| <= i < |docs|
  {
    if i >= 0 then docs[i] else docs[|docs| + i]
  }

  /** No id lies below `-len(docs_store)`, so every lookup the comprehension
      makes succeeds. */
  predicate InRangeAsWritten(docs: seq<string>, ids: seq<int>) {
    forall k :: 0 <= k < |ids| ==> ids[k] >= -|docs|
  }

  /** The documents the comprehension as written collects when no lookup
      fails: every id below the length passes the guard, negative ones
      included. */
  function AsWrittenList(docs: seq<string>, ids: seq<int>): (r: seq<string>)
    requires InRangeAsWritten(docs, ids)
    ensures |r| <= |ids|
    ensures forall x :: x in r ==> x in docs
  {
    if ids == [] then []
    else (if ids[0] < |docs| then [PyIndex(docs, ids[0])] else []) + AsWrittenList(docs, ids[1..])
  }

  /** `[docs_store[i] for i in ids if i < len(docs_store)]` as written: the
      `-1` padding passes the guard and reads the last document, and an id
      below `-len(docs_store)` (any `-1` when the store is empty) raises
      `IndexError`, which the endpoint turns into a 500. */
  function FilterAsWritten(docs: seq<string>, ids: seq<int>): (r: Outcome<seq<string>>)
    ensures r.Ok? ==> |r.value| <= |ids| && forall x :: x in r.value ==> x in docs
    ensures r.Raised? <==> exists k :: 0 <= k < |ids| && ids[k] < -|docs|
    ensures r.Raised? ==> r == Raised(500, ServerError)
  {
    if InRangeAsWritten(docs, ids) then Ok(AsWrittenList(docs, ids)) else Raised(500, ServerError)
  }

  /** The comprehension as intended: only real positions of the store are
      looked up. */
  function Filter(docs: seq<string>, ids: seq<int>): (r: seq<string>)
    ensures |r| <= |ids|
    ensures forall x :: x in r ==> x in docs
  {
    if ids == [] then []
    else (if 0 <= ids[0] < |docs| then [docs[ids[0]]] else []) + Filter(docs, ids[1..])
  }

  /** Over a FAISS answer the intended filter returns exactly the documents
      of the real ids, in the order FAISS ranked them. */
  lemma {:induction false} FilterKeepsValid(docs: seq<string>, ids: seq<int>, m: nat)
    requires ValidThenPadding(ids, |docs|, m)
    ensures |Filter(docs, ids)| == m
    ensures forall k :: 0 <= k < m ==> Filter(docs, ids)[k] == docs[ids[k]]
    decreases |ids|
  {
    if ids != [] {
      var m' := if m > 0 then m - 1 else 0;
      assert ValidThenPadding(ids[1..], |docs|, m');
      FilterKeepsValid(docs, ids[1..], m');
    }
  }

  /** The intended filter returns `min(10, n)` documents, the `k`-th being the
      one FAISS ranked `k`-th. */
  lemma FilterOfFaiss(docs: seq<string>, ids: seq<int>)
    requires FaissResult(ids, |docs|)
    ensures |Filter(docs, ids)| == Min(TopK, |docs|)
    ensures forall k :: 0 <= k < |Filter(docs, ids)| ==> Filter(docs, ids)[k] == docs[ids[k]]
  {
    FilterKeepsValid(docs, ids, Min(TopK, |docs|));
  }

  /** `n` copies of `s`. */
  function Repeat(s: string, n: nat): (r: seq<string>)
    ensures |r| == n && forall k :: 0 <= k < n ==> r[k] == s
  {
    if n == 0 then [] else [s] + Repeat(s, n - 1)
  }

  /** As written, every `-1` of the padding adds one more copy of the last
      stored document after the real results. */
  lemma {:induction false} AsWrittenPadsWithLast(docs: seq<string>, ids: seq<int>, m: nat)
    requires |docs| > 0 && ValidThenPadding(ids, |docs|, m)
    ensures InRangeAsWritten(docs, ids)
    ensures AsWrittenList(docs, ids) == Filter(docs, ids) + Repeat(docs[|docs| - 1], |ids| - m)
    decreases |ids|
  {
    if ids == [] {
      assert Filter(docs, ids) + Repeat(docs[|docs| - 1], |ids| - m) == [];
    } else {
      var m' := if m > 0 then m - 1 else 0;
      assert ValidThenPadding(ids[1..], |docs|, m');
      AsWrittenPadsWithLast(docs, ids[1..], m');
      if m > 0 {
        PadStepReal(docs, ids, m);
      } else {
        FilterKeepsValid(docs, ids[1..], 0);
        PadStepPadding(docs, ids);
      }
    }
  }

  /** The range condition of a list follows from its head and its tail. */
  lemma InRangeCons(docs: seq<string>, ids: seq<int>)
    requires ids != [] && ids[0] >= -|docs| && InRangeAsWritten(docs, ids[1..])
    ensures InRangeAsWritten(docs, ids)
  {
    forall k | 0 < k < |ids| ensures ids[k] >= -|docs| {
      assert ids[k] == ids[1..][k - 1];
    }
  }

  /** The step of AsWrittenPadsWithLast for a real id at the front. */
  lemma PadStepReal(docs: seq<string>, ids: seq<int>, m: nat)
    requires |docs| > 0 && 0 < m <= |ids| && 0 <= ids[0] < |docs|
    requires InRangeAsWritten(docs, ids[1..])
    requires AsWrittenList(docs, ids[1..]) == Filter(docs, ids[1..]) + Repeat(docs[|docs| - 1], |ids| - m)
    ensures InRangeAsWritten(docs, ids)
    ensures AsWrittenList(docs, ids) == Filter(docs, ids) + Repeat(docs[|docs| - 1], |ids| - m)
  {
    InRangeCons(docs, ids);
    var d, tail, pad := docs[ids[0]], Filter(docs, ids[1..]), Repeat(docs[|docs| - 1], |ids| - m);
    assert AsWrittenList(docs, ids) == [d] + (tail + pad);
    assert Filter(docs, ids) == [d] + tail;
    assert [d] + (tail + pad) == ([d] + tail) + pad;
  }

  /** The step of AsWrittenPadsWithLast for a `-1` at the front. */
  lemma PadStepPadding(docs: seq<string>, ids: seq<int>)
    requires |docs| > 0 && ids != [] && ids[0] == -1 && Filter(docs, ids[1..]) == []
    requires InRangeAsWritten(docs, ids[1..])
    requires AsWrittenList(docs, ids[1..]) == Filter(docs, ids[1..]) + Repeat(docs[|docs| - 1], |ids| - 1)
    ensures InRangeAsWritten(docs, ids)
    ensures AsWrittenList(docs, ids) == Filter(docs, ids) + Repeat(docs[|docs| - 1], |ids|)
  {
    InRangeCons(docs, ids);
    var last, pad := docs[|docs| - 1], Repeat(docs[|docs| - 1], |ids| - 1);
    assert AsWrittenList(docs, ids[1..]) == pad;
    assert PyIndex(docs, ids[0]) == last;
    assert AsWrittenList(docs, ids) == [last] + pad;
    assert Filter(docs, ids) == [];
    assert Repeat(last, |ids|) == [last] + pad;
  }

  /** With fewer than ten documents stored, the query as written answers ten
      results, repeating the last document, where only `n` are meant. */
  lemma AsWrittenRepeatsLastDocument(docs: seq<string>, ids: seq<int>)
    requires FaissResult(ids, |docs|) && 0 < |docs| < TopK
    ensures FilterAsWritten(docs, ids).Ok?
    ensures |FilterAsWritten(docs, ids).value| == TopK
    ensures FilterAsWritten(docs, ids).value[..|docs|] == Filter(docs, ids)
    ensures |Filter(docs, ids)| == |docs|
    ensures forall k :: 0 <= k < |docs| ==> FilterAsWritten(docs, ids).value[k] == docs[ids[k]]
    ensures forall k :: |docs| <= k < TopK ==> FilterAsWritten(docs, ids).value[k] == docs[|docs| - 1]
  {
    AsWrittenPadsWithLast(docs, ids, |docs|);
    FilterOfFaiss(docs, ids);
  }

  /** With an empty store the query as written fails on the first `-1`,
      where an empty list of results is meant. */
  lemma AsWrittenFailsOnEmptyStore(ids: seq<int>)
    requires FaissResult(ids, 0)
    ensures FilterAsWritten([], ids) == Raised(500, ServerError)
    ensures Filter([], ids) == []
  {
    assert ids[0] == -1;
    FilterOfFaiss([], ids);
  }

  /** With ten or more documents stored the padding never occurs and the
      two filters agree. */
  lemma AsWrittenAgreesWhenFull(docs: seq<string>, ids: seq<int>)
    requires FaissResult(ids, |docs|) && |docs| >= TopK
    ensures FilterAsWritten(docs, ids) == Ok(Filter(docs, ids))
  {
    AsWrittenPadsWithLast(docs, ids, TopK);
    assert Filter(docs, ids) + Repeat(docs[|docs| - 1], 0) == Filter(docs, ids);
    assert FilterAsWritten(docs, ids) == Ok(AsWrittenList(docs, ids));
  }

  /** `not text`: a missing key and the empty string are both rejected. */
  predicate Missing(text: Option<string>) {
    text.None? || text.value == ""
  }

  /** The index, the document list and their two files. */
  class Store {
    /** The vectors held by `index`, in insertion order (their FAISS ids). */
    var vectors: seq<Vector>
    /** `docs_store`. */
    var docs: seq<string>
    /** data/vectors/faiss.index, `None` while it does not exist. */
    var indexFile: Option<seq<Vector>>
    /** data/vectors/docs.json, `None` while it does not exist. */
    var docsFile: Option<seq<string>>

    /** Start-up: both files are loaded when both exist; otherwise a new
        empty index and an empty list are created and both files written. */
    constructor Start(indexOnDisk: Option<seq<Vector>>, docsOnDisk: Option<seq<string>>)
      ensures indexOnDisk.Some? && docsOnDisk.Some? ==>
        && vectors == indexOnDisk.value && docs == docsOnDisk.value
        && indexFile == indexOnDisk && docsFile == docsOnDisk
      ensures !(indexOnDisk.Some? && docsOnDisk.Some?) ==>
        && vectors == [] && docs == []
        && indexFile == Some([]) && docsFile == Some([])
    {
      if indexOnDisk.Some? && docsOnDisk.Some? {
        vectors := indexOnDisk.value;
        docs := docsOnDisk.value;
        indexFile := indexOnDisk;
        docsFile := docsOnDisk;
      } else {
        vectors := [];
        docs := [];
        indexFile := Some([]);
        docsFile := Some([]);
      }
    }

    /** `persist_index`: both files now hold the current state. */
    method Persist()
      modifies this
      ensures indexFile == Some(vectors) && docsFile == Some(docs)
      ensures vectors == old(vectors) && docs == old(docs)
    {
      indexFile := Some(vectors);
      docsFile := Some(docs);
    }

    /** `add_document`: a missing or empty text is refused with 400 and
        nothing changes; otherwise its embedding joins the index, the text
        joins the list at the same position, both are saved, and the answer
        is the new number of documents. */
    method AddDocument(text: Option<string>, embed: Embedder) returns (r: Outcome<nat>)
      modifies this
      ensures Missing(text) ==> r == Raised(400, MissingText)
      ensures Missing(text) ==> unchanged(this)
      ensures !Missing(text) ==>
        && vectors == old(vectors) + [embed(text.value)]
        && docs == old(docs) + [text.value]
        && indexFile == Some(vectors) && docsFile == Some(docs)
        && r == Ok(|docs|)
      ensures |vectors| - |docs| == old(|vectors| - |docs|)
    {
      if Missing(text) {
        return Raised(400, MissingText);
      }
      var emb := embed(text.value);
      vectors := vectors + [emb];
      docs := docs + [text.value];
      Persist();
      r := Ok(|docs|);
    }

    /** `query_documents`: a missing or empty text is refused with 400;
        otherwise the ids FAISS returns for the query's embedding go through
        the comprehension as written. When the index and the list are in
        step and FAISS answers as a flat index does, ten or more stored
        texts give the ten nearest in FAISS's order; one to nine give those
        texts followed by copies of the last stored text, ten results in
        all; an empty store raises, which the endpoint turns into a 500. */
    method QueryDocuments(query: Option<string>, embed: Embedder, search: Search) returns (r: Outcome<seq<string>>)
      ensures Missing(query) ==> r == Raised(400, MissingText)
      ensures !Missing(query) ==> r == FilterAsWritten(docs, search(vectors, embed(query.value)))
      ensures !Missing(query) && |vectors| == |docs| ==>
        var ids := search(vectors, embed(query.value));
        FaissResult(ids, |docs|) ==>
          && (|docs| >= TopK ==>
                r.Ok? && |r.value| == TopK && forall k :: 0 <= k < TopK ==> r.value[k] == docs[ids[k]])
          && (0 < |docs| < TopK ==>
                && r.Ok? && |r.value| == TopK
                && (forall k :: 0 <= k < |docs| ==> r.value[k] == docs[ids[k]])
                && (forall k :: |docs| <= k < TopK ==> r.value[k] == docs[|docs| - 1]))
          && (|docs| == 0 ==> r == Raised(500, ServerError))
    {
      if Missing(query) {
        return Raised(400, MissingText);
      }
      var ids := search(vectors, embed(query.value));
      if FaissResult(ids, |docs|) {
        if |docs| >= TopK {
          AsWrittenAgreesWhenFull(docs, ids);
          FilterOfFaiss(docs, ids);
        } else if |docs| > 0 {
          AsWrittenRepeatsLastDocument(docs, ids);
        } else {
          AsWrittenFailsOnEmptyStore(ids);
        }
      }
      r := FilterAsWritten(docs, ids);
    }
  }
}
