/** The in-memory retrieval service of rag-backend/rag.py: records
    `{"text": ...}` kept in rag_memory.json, an append endpoint, and a query
    that ranks every record by its similarity to the prompt and returns the
    best ten. The similarity (cosine similarity of sentence embeddings) is
    an oracle. */
module RagMemory {
  import opened Wrappers

  /** `scored[:10]`. */
  const TopK := 10

  /** One stored record, `{"text": ...}`. */
  datatype Record = Record(text: string)

  /** A record with its similarity to the prompt, `(score, doc)`. */
  datatype Scored = Scored(score: real, doc: Record)

  /** `util.cos_sim(model.encode(prompt), model.encode(text))`. */
  type Scorer = (string, string) -> real

  /** The reply of `query_rag`. */
  datatype QueryReply = NoMemory | Results(docs: seq<Record>)

  function Min(a: nat, b: nat): nat {
    if a <= b then a else b
  }

  /** The list comprehension: every record paired with its score, in
      stored order. */
  function Scores(prompt: string, memory: seq<Record>, score: Scorer): (r: seq<Scored>)
    ensures |r| == |memory|
    ensures forall i :: 0 <= i < |r| ==> r[i].doc == memory[i] && r[i].score == score(prompt, memory[i].text)
  {
    seq(|memory|, i requires 0 <= i < |memory| => Scored(score(prompt, memory[i].text), memory[i]))
  }

  /** `[doc for score, doc in top]`. */
  function Docs(s: seq<Scored>): (r: seq<Record>)
    ensures |r| == |s|
    ensures forall i :: 0 <= i < |s| ==> r[i] == s[i].doc
  {
    seq(|s|, i requires 0 <= i < |s| => s[i].doc)
  }

  /** Highest score first. */
  predicate SortedDesc(s: seq<Scored>) {
    forall i, j :: 0 <= i < j < |s| ==> s[i].score >= s[j].score
  }

  /** Every entry carries its own record's score against the prompt. */
  predicate WellScored(prompt: string, score: Scorer, s: seq<Scored>) {
    forall i :: 0 <= i < |s| ==> s[i].score == score(prompt, s[i].doc.text)
  }

  /** Records in non-increasing order of their score against the prompt. */
  predicate Ranked(prompt: string, score: Scorer, docs: seq<Record>) {
    forall i, j :: 0 <= i < j < |docs| ==> score(prompt, docs[i].text) >= score(prompt, docs[j].text)
  }

  lemma DocsAppend(a: seq<Scored>, b: seq<Scored>)
    ensures Docs(a + b) == Docs(a) + Docs(b)
  {
  }
  /** Dropping entry `j` drops its record once. */
  function Without<T>(s: seq<T>, j: nat): seq<T>
    requires j < |s|
  {
    s[..j] + s[j + 1..]
  }

  lemma RemoveMatched(x: seq<Scored>, y: seq<Scored>, j: nat)
    requires multiset(x) == multiset(y) && |x| > 0 && j < |y| && y[j] == x[0]
    ensures multiset(Without(x, 0)) == multiset(Without(y, j))
  {
    var e := x[0];
    assert x == [e] + Without(x, 0);
    assert y == y[..j] + [e] + y[j + 1..];
    assert multiset(Without(x, 0)) == multiset(x) - multiset{e};
    assert multiset(Without(y, j)) == multiset(y) - multiset{e};
  }

  lemma DocsWithout(y: seq<Scored>, j: nat)
    requires j < |y|
    ensures multiset(Docs(y)) == multiset(Docs(Without(y, j))) + multiset{y[j].doc}
  {
    var y1, y2 := y[..j], y[j + 1..];
    assert y == y1 + [y[j]] + y2;
    DocsAppend(y1 + [y[j]], y2);
    DocsAppend(y1, [y[j]]);
    DocsAppend(y1, y2);
    assert Docs([y[j]]) == [y[j].doc];
  }

  lemma {:induction false} DocsPermutation(x: seq<Scored>, y: seq<Scored>)
    requires multiset(x) == multiset(y)
    ensures multiset(Docs(x)) == multiset(Docs(y))
    decreases |x|
  {
    if x == [] {
      assert |multiset(y)| == 0;
    } else {
      assert x[0] in multiset(y);
      var j :| 0 <= j < |y| && y[j] == x[0];
      RemoveMatched(x, y, j);
      DocsPermutation(Without(x, 0), Without(y, j));
      DocsWithout(x, 0);
      DocsWithout(y, j);
    }
  }

  /** Midway through one insertion step: `s[..i + 1]` is ordered apart from
      the element being moved, now at `j`, which outscores all after it. */
  predicate Sinking(s: seq<Scored>, j: nat, i: nat)
    requires j <= i < |s|
  {
    && (forall p, q :: 0 <= p < q <= i && p != j && q != j ==> s[p].score >= s[q].score)
    && (forall q :: j < q <= i ==> s[j].score >= s[q].score)
  }

  function Swap(s: seq<Scored>, i: nat, j: nat): (r: seq<Scored>)
    requires i < |s| && j < |s|
    ensures multiset(r) == multiset(s)
  {
    s[i := s[j]][j := s[i]]
  }

  lemma SinkStep(s: seq<Scored>, j: nat, i: nat)
    requires 0 < j <= i < |s| && Sinking(s, j, i) && s[j - 1].score < s[j].score
    ensures Sinking(Swap(s, j - 1, j), j - 1, i)
  {
  }

  lemma SinkDone(s: seq<Scored>, j: nat, i: nat)
    requires j <= i < |s| && Sinking(s, j, i)
    requires j == 0 || s[j - 1].score >= s[j].score
    ensures SortedDesc(s[..i + 1])
  {
  }

  /** `scored.sort(reverse=True)` by score: an insertion sort in place.
      The result is ordered highest score first and is a permutation of the
      input. */
  method SortByScore(a: array<Scored>)
    modifies a
    ensures SortedDesc(a[..])
    ensures multiset(a[..]) == old(multiset(a[..]))
  {
    var i := 0;
    while i < a.Length
      invariant 0 <= i <= a.Length
      invariant SortedDesc(a[..i])
      invariant multiset(a[..]) == old(multiset(a[..]))
    {
      InsertLast(a, i);
      i := i + 1;
    }
    assert a[..a.Length] == a[..];
  }

  /** One insertion step: `a[i]` moves left past every lower score, so the
      sorted prefix grows by one. */
  method InsertLast(a: array<Scored>, i: nat)
    requires i < a.Length
    requires SortedDesc(a[..i])
    modifies a
    ensures SortedDesc(a[..i + 1])
    ensures multiset(a[..]) == old(multiset(a[..]))
  {
    var j := i;
    while j > 0 && a[j - 1].score < a[j].score
      invariant 0 <= j <= i
      invariant multiset(a[..]) == old(multiset(a[..]))
      invariant Sinking(a[..], j, i)
    {
      SinkStep(a[..], j, i);
      a[j - 1], a[j] := a[j], a[j - 1];
      j := j - 1;
    }
    SinkDone(a[..], j, i);
  }

  /** rag_memory.json, the only state of the service. */
  class MemoryFile {
    var records: seq<Record>

    /** At import a missing file is created holding `[]`, so the first
        `load_memory()` returns `[]`; an existing file is kept. */
    constructor Open(existing: Option<seq<Record>>)
      ensures records == (if existing.Some? then existing.value else [])
    {
      records := if existing.Some? then existing.value else [];
    }

    /** `add_doc`: load, append `{"text": prompt}`, save, and answer with
        the new number of records. */
    method AddDoc(prompt: string) returns (count: nat)
      modifies this
      ensures records == old(records) + [Record(prompt)]
      ensures count == |records|
    {
      var memory := records;
      memory := memory + [Record(prompt)];
      records := memory;
      count := |memory|;
    }

    /** `query_rag`: an empty store answers "No memory available."; otherwise
        the answer is the best `min(10, n)` records, highest score first,
        each taken from the store (no record more often than it is stored),
        and no record left out scores above one that was returned. The
        store is not changed. */
    method QueryRag(prompt: string, score: Scorer) returns (reply: QueryReply)
      ensures reply == NoMemory <==> records == []
      ensures reply.Results? ==>
        && |reply.docs| == Min(TopK, |records|)
        && Ranked(prompt, score, reply.docs)
        && multiset(reply.docs) <= multiset(records)
        && (forall d, r :: d in multiset(records) - multiset(reply.docs) && r in reply.docs ==>
              score(prompt, d.text) <= score(prompt, r.text))
    {
      var memory := records;
      if |memory| == 0 {
        return NoMemory;
      }
      var scored := Scores(prompt, memory, score);
      var a := new Scored[|scored|](i requires 0 <= i < |scored| => scored[i]);
      assert a[..] == scored;
      SortByScore(a);
      var k := Min(TopK, |memory|);
      var top := a[..k];
      reply := Results(Docs(top));
      TopProperties(prompt, score, memory, a[..], k);
    }
  }

  /** A permutation of the scored records still pairs each record with
      its own score. */
  lemma PermutedScores(prompt: string, score: Scorer, memory: seq<Record>, sorted: seq<Scored>)
    requires multiset(sorted) == multiset(Scores(prompt, memory, score))
    ensures WellScored(prompt, score, sorted)
  {
    var scored := Scores(prompt, memory, score);
    forall i | 0 <= i < |sorted| ensures sorted[i].score == score(prompt, sorted[i].doc.text) {
      assert sorted[i] in multiset(scored);
      var m :| 0 <= m < |scored| && scored[m] == sorted[i];
    }
  }

  /** The records of a sorted, correctly scored list are ranked. */
  lemma SortedIsRanked(prompt: string, score: Scorer, sorted: seq<Scored>)
    requires SortedDesc(sorted) && WellScored(prompt, score, sorted)
    ensures Ranked(prompt, score, Docs(sorted))
  {
  }

  /** Splitting a permutation of the scores at `k` splits the store's
      records into the top `k` and the rest. */
  lemma SplitStore(prompt: string, score: Scorer, memory: seq<Record>, sorted: seq<Scored>, k: nat)
    requires multiset(sorted) == multiset(Scores(prompt, memory, score))
    requires k <= |sorted|
    ensures multiset(memory) == multiset(Docs(sorted[..k])) + multiset(Docs(sorted[k..]))
  {
    assert Docs(Scores(prompt, memory, score)) == memory;
    DocsPermutation(sorted, Scores(prompt, memory, score));
    assert sorted == sorted[..k] + sorted[k..];
    DocsAppend(sorted[..k], sorted[k..]);
  }

  /** In a sorted, correctly scored list, no record after position `k`
      outscores one before it. */
  lemma TailScoresLower(prompt: string, score: Scorer, sorted: seq<Scored>, k: nat)
    requires SortedDesc(sorted) && WellScored(prompt, score, sorted) && k <= |sorted|
    ensures forall d, r :: d in Docs(sorted[k..]) && r in Docs(sorted[..k]) ==>
              score(prompt, d.text) <= score(prompt, r.text)
  {
    var top, rest := Docs(sorted[..k]), Docs(sorted[k..]);
    forall d, r | d in rest && r in top
      ensures score(prompt, d.text) <= score(prompt, r.text)
    {
      var j :| 0 <= j < |rest| && rest[j] == d;
      var i :| 0 <= i < |top| && top[i] == r;
      assert sorted[k + j].doc == d && sorted[i].doc == r;
    }
  }

  /** What the sorted scores give: the first `k` records are ranked, come
      from the store, and outscore every record left out. */
  lemma TopProperties(prompt: string, score: Scorer, memory: seq<Record>, sorted: seq<Scored>, k: nat)
    requires SortedDesc(sorted) && multiset(sorted) == multiset(Scores(prompt, memory, score))
    requires k <= |sorted|
    ensures Ranked(prompt, score, Docs(sorted[..k]))
    ensures multiset(Docs(sorted[..k])) <= multiset(memory)
    ensures forall d, r :: d in multiset(memory) - multiset(Docs(sorted[..k])) && r in Docs(sorted[..k]) ==>
              score(prompt, d.text) <= score(prompt, r.text)
  {
    PermutedScores(prompt, score, memory, sorted);
    SortedIsRanked(prompt, score, sorted[..k]);
    SplitStore(prompt, score, memory, sorted, k);
    TailScoresLower(prompt, score, sorted, k);
    var top, rest := Docs(sorted[..k]), Docs(sorted[k..]);
    forall d | d in multiset(memory) - multiset(top) ensures d in rest {
      assert d in multiset(rest);
    }
  }
}
