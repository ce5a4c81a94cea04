/** The bookkeeping of backend/app/services/rag_service.py around the ChromaDB collection:
    chunk ids and metadata on indexing, the projection of a query answer, the context string
    handed to the model, the de-duplicated document list and chunk deletion. Text
    extraction, chunking, embeddings and similarity ranking are outside the model: their
    results are parameters. */
module RagService {
  import opened Options
  import Text
  import Lists

  /** A chunk's metadata; any key may be missing from what the collection holds. */
  datatype Meta = Meta(documentId: Option<string>, filename: Option<string>, chunkIndex: Option<nat>,
                       totalChunks: Option<nat>, uploadDate: Option<string>)

  /** One stored chunk: its id, its text and its metadata (`None` for a null metadata). */
  datatype Entry = Entry(id: string, text: string, meta: Option<Meta>)

  /** One row of a query answer. */
  datatype Hit = Hit(text: string, meta: Option<Meta>)

  /** One element of `list_documents`' answer. */
  datatype DocSummary = DocSummary(id: string, filename: string, chunkCount: nat, uploadDate: Option<string>)

  /** Extracted texts shorter than this are not indexed. */
  const MinTextLength := 100
  const UnknownFilename := "Inconnu"
  const ChunkInfix := "_chunk_"
  const PartSeparator := "\n---\n"

  /** `f"{document_id}_chunk_{i}"`. */
  function ChunkId(documentId: string, i: nat): string {
    documentId + ChunkInfix + Text.Decimal(i)
  }

  /** The metadata `index_document` attaches to chunk `i` of `n`. */
  function ChunkMeta(documentId: string, filename: string, i: nat, n: nat): Meta {
    Meta(Some(documentId), Some(filename), Some(i), Some(n), None)
  }

  /** The batch `index_document` adds for the given chunks. */
  function NewEntries(documentId: string, filename: string, chunks: seq<string>): (es: seq<Entry>)
    ensures |es| == |chunks|
    ensures forall i :: 0 <= i < |es| ==>
      es[i] == Entry(ChunkId(documentId, i), chunks[i], Some(ChunkMeta(documentId, filename, i, |chunks|)))
  {
    seq(|chunks|, i requires 0 <= i < |chunks| => Entry(ChunkId(documentId, i), chunks[i], Some(ChunkMeta(documentId, filename, i, |chunks|))))
  }

  /** Length of the longest all-digit suffix. */
  function DigitSuffixLength(s: string): (n: nat)
    ensures n <= |s|
  {
    if s != [] && Text.IsDigit(s[|s| - 1]) then 1 + DigitSuffixLength(s[..|s| - 1]) else 0
  }

  /** Digits written after a non-digit are exactly the longest all-digit suffix. */
  lemma {:induction false} DigitSuffixAfterNonDigit(p: string, d: string)
    requires p != [] && !Text.IsDigit(p[|p| - 1])
    requires forall i :: 0 <= i < |d| ==> Text.IsDigit(d[i])
    ensures DigitSuffixLength(p + d) == |d|
  {
    if d == [] {
      assert p + d == p;
    } else {
      var d' := d[..|d| - 1];
      assert (p + d)[..|p + d| - 1] == p + d';
      DigitSuffixAfterNonDigit(p, d');
    }
  }

  /** The digits after the last `_chunk_` determine where a chunk id splits. */
  lemma DigitSuffixSplit(a: string, b: string, d1: string, d2: string)
    requires forall i :: 0 <= i < |d1| ==> Text.IsDigit(d1[i])
    requires forall i :: 0 <= i < |d2| ==> Text.IsDigit(d2[i])
    requires a + ChunkInfix + d1 == b + ChunkInfix + d2
    ensures d1 == d2 && a == b
  {
    var s := a + ChunkInfix + d1;
    DigitSuffixAfterNonDigit(a + ChunkInfix, d1);
    DigitSuffixAfterNonDigit(b + ChunkInfix, d2);
    assert |d1| == |d2|;
    assert d1 == s[|s| - |d1|..];
    assert a + ChunkInfix == s[..|s| - |d1|] == b + ChunkInfix;
    assert a == (a + ChunkInfix)[..|a|];
  }

  /** Chunk ids are unique: distinct (document, index) pairs never collide. */
  lemma ChunkIdInjective(d1: string, i: nat, d2: string, j: nat)
    requires ChunkId(d1, i) == ChunkId(d2, j)
    ensures d1 == d2 && i == j
  {
    DigitSuffixSplit(d1, d2, Text.Decimal(i), Text.Decimal(j));
    Text.DecimalInjective(i, j);
  }

  /** No two stored chunks share an id. */
  predicate DistinctIds(es: seq<Entry>) {
    forall i, j :: 0 <= i < j < |es| ==> es[i].id != es[j].id
  }

  predicate HasId(es: seq<Entry>, id: string) {
    exists k :: 0 <= k < |es| && es[k].id == id
  }

  /** A batch is added to the collection only for ids it does not hold yet. */
  function Fresh(existing: seq<Entry>, batch: seq<Entry>): (r: seq<Entry>)
    ensures forall i :: 0 <= i < |r| ==> r[i] in batch && !HasId(existing, r[i].id)
    ensures forall i :: 0 <= i < |batch| && !HasId(existing, batch[i].id) ==> batch[i] in r
    ensures Lists.IsSubsequence(r, batch)
  {
    Lists.FilterIsSubsequence(batch, (e: Entry) => !HasId(existing, e.id));
    Lists.Filter(batch, (e: Entry) => !HasId(existing, e.id))
  }

  /** The entries of one document are the ones whose metadata names it. */
  predicate OfDocument(e: Entry, documentId: string) {
    e.meta.Some? && e.meta.value.documentId == Some(documentId)
  }

  function NotOfDocument(documentId: string): Entry -> bool {
    (e: Entry) => !OfDocument(e, documentId)
  }

  class Collection {
    var entries: seq<Entry>

    ghost predicate Valid()
      reads this
    {
      DistinctIds(entries)
    }

    constructor ()
      ensures Valid() && entries == []
    {
      entries := [];
    }

    /** `index_document`. `rawText` is what the PDF extractor returned, `chunks` the cleaned
        text's chunks, and `failed` says whether embedding or adding raised. */
    method IndexDocument(documentId: string, filename: string, rawText: Option<string>, chunks: seq<string>, failed: bool)
      returns (n: nat)
      requires Valid()
      modifies this
      ensures Valid()
      ensures rawText.None? || |rawText.value| < MinTextLength || failed ==> n == 0 && entries == old(entries)
      ensures rawText.Some? && |rawText.value| >= MinTextLength && !failed ==>
        (n == |chunks| && entries == old(entries) + Fresh(old(entries), NewEntries(documentId, filename, chunks)))
    {
      if rawText.None? || |rawText.value| < MinTextLength {
        return 0;
      }
      if failed {
        return 0;
      }
      var batch := NewEntries(documentId, filename, chunks);
      BatchIdsDistinct(documentId, filename, chunks);
      var added := Fresh(entries, batch);
      AppendFreshDistinct(entries, batch, added);
      entries := entries + added;
      n := |chunks|;
    }

    /** `delete_document_chunks`; `failed` says whether the collection raised. */
    method DeleteDocumentChunks(documentId: string, failed: bool) returns (deleted: bool)
      requires Valid()
      modifies this
      ensures Valid()
      ensures deleted <==> !failed && exists k :: 0 <= k < |old(entries)| && OfDocument(old(entries)[k], documentId)
      ensures deleted ==> entries == Lists.Filter(old(entries), NotOfDocument(documentId))
      ensures !deleted ==> entries == old(entries)
      ensures deleted ==> forall k :: 0 <= k < |entries| ==> !OfDocument(entries[k], documentId)
    {
      if failed {
        return false;
      }
      if !exists k :: 0 <= k < |entries| && OfDocument(entries[k], documentId) {
        return false;
      }
      Lists.FilterIsSubsequence(entries, NotOfDocument(documentId));
      SubsequenceKeepsDistinct(Lists.Filter(entries, NotOfDocument(documentId)), entries);
      entries := Lists.Filter(entries, NotOfDocument(documentId));
      deleted := true;
    }
  }

  /** The ids of one batch are pairwise distinct. */
  lemma BatchIdsDistinct(documentId: string, filename: string, chunks: seq<string>)
    ensures DistinctIds(NewEntries(documentId, filename, chunks))
  {
    var es := NewEntries(documentId, filename, chunks);
    forall i, j | 0 <= i < j < |es| ensures es[i].id != es[j].id {
      if es[i].id == es[j].id {
        ChunkIdInjective(documentId, i, documentId, j);
      }
    }
  }

  /** A subsequence of a list with distinct ids has distinct ids. */
  lemma {:induction false} SubsequenceKeepsDistinct(xs: seq<Entry>, ys: seq<Entry>)
    requires Lists.IsSubsequence(xs, ys) && DistinctIds(ys)
    ensures DistinctIds(xs)
    decreases |ys|
  {
    if xs != [] {
      if xs[0] == ys[0] {
        SubsequenceKeepsDistinct(xs[1..], ys[1..]);
        SubsequenceMembers(xs[1..], ys[1..]);
        forall j | 0 < j < |xs| ensures xs[0].id != xs[j].id {
          assert xs[j] == xs[1..][j - 1];
          var k :| 0 <= k < |ys[1..]| && ys[1..][k] == xs[j];
          assert ys[k + 1] == xs[j];
        }
      } else {
        SubsequenceKeepsDistinct(xs, ys[1..]);
      }
    }
  }

  /** Every element of a subsequence occurs in the longer list. */
  lemma {:induction false} SubsequenceMembers(xs: seq<Entry>, ys: seq<Entry>)
    requires Lists.IsSubsequence(xs, ys)
    ensures forall j :: 0 <= j < |xs| ==> exists k :: 0 <= k < |ys| && ys[k] == xs[j]
    decreases |ys|
  {
    if xs != [] {
      if xs[0] == ys[0] {
        SubsequenceMembers(xs[1..], ys[1..]);
        forall j | 0 < j < |xs| ensures exists k :: 0 <= k < |ys| && ys[k] == xs[j] {
          assert xs[j] == xs[1..][j - 1];
          var k :| 0 <= k < |ys[1..]| && ys[1..][k] == xs[j];
          assert ys[k + 1] == xs[j];
        }
        assert ys[0] == xs[0];
      } else {
        SubsequenceMembers(xs, ys[1..]);
        forall j | 0 <= j < |xs| ensures exists k :: 0 <= k < |ys| && ys[k] == xs[j] {
          var k :| 0 <= k < |ys[1..]| && ys[1..][k] == xs[j];
          assert ys[k + 1] == xs[j];
        }
      }
    }
  }

  /** Appending the added part of a batch with distinct ids keeps the collection's ids distinct. */
  lemma AppendFreshDistinct(existing: seq<Entry>, batch: seq<Entry>, added: seq<Entry>)
    requires DistinctIds(existing) && DistinctIds(batch) && added == Fresh(existing, batch)
    ensures DistinctIds(existing + added)
  {
    SubsequenceKeepsDistinct(added, batch);
    var all := existing + added;
    forall i, j | 0 <= i < j < |all| ensures all[i].id != all[j].id {
      if i < |existing| && j >= |existing| {
        assert all[j] == added[j - |existing|];
        assert !HasId(existing, all[j].id);
      } else if i >= |existing| {
        assert all[i] == added[i - |existing|] && all[j] == added[j - |existing|];
      }
    }
  }

  /** What `search` returns: the chunk texts and, position by position, their file names. */
  datatype SearchResult = SearchResult(chunks: seq<string>, sources: seq<string>)

  /** A row `search` can project: its metadata is present and names a file. */
  predicate HasFilename(h: Hit) {
    h.meta.Some? && h.meta.value.filename.Some?
  }

  /** `search`, given the query answer (`None` when embedding or querying raised). A row
      without a file name raises inside the projection, which is caught like any other error. */
  function Search(answer: Option<seq<Hit>>): (r: SearchResult)
    ensures |r.chunks| == |r.sources|
    ensures answer.None? || answer.value == [] ==> r == SearchResult([], [])
    ensures answer.Some? && (exists k :: 0 <= k < |answer.value| && !HasFilename(answer.value[k])) ==> r == SearchResult([], [])
    ensures answer.Some? && (forall k :: 0 <= k < |answer.value| ==> HasFilename(answer.value[k])) ==>
      |r.chunks| == |answer.value|
      && forall k :: 0 <= k < |answer.value| ==>
           r.chunks[k] == answer.value[k].text && r.sources[k] == answer.value[k].meta.value.filename.value
  {
    if answer.None? || answer.value == [] then SearchResult([], [])
    else
      var hits := answer.value;
      if exists k :: 0 <= k < |hits| && !HasFilename(hits[k]) then SearchResult([], [])
      else
        SearchResult(
          seq(|hits|, k requires 0 <= k < |hits| => hits[k].text),
          seq(|hits|, k requires 0 <= k < |hits| && HasFilename(hits[k]) => hits[k].meta.value.filename.value))
  }

  /** One block of the context: `f"[Document: {source}]\n{chunk}\n"`. */
  function Part(source: string, chunk: string): string {
    "[Document: " + source + "]\n" + chunk + "\n"
  }

  /** `sep.join(parts)`. */
  function Join(parts: seq<string>, sep: string): string {
    if parts == [] then ""
    else if |parts| == 1 then parts[0]
    else Join(parts[..|parts| - 1], sep) + sep + parts[|parts| - 1]
  }

  /** Every part occurs in the joined string. */
  lemma {:induction false} JoinContainsParts(parts: seq<string>, sep: string, k: nat)
    requires k < |parts|
    ensures exists i :: Text.OccursAt(Join(parts, sep), parts[k], i)
  {
    var j := Join(parts, sep);
    if |parts| == 1 {
      assert Text.OccursAt(j, parts[k], 0);
    } else if k == |parts| - 1 {
      assert j[|j| - |parts[k]|..] == parts[k];
      assert Text.OccursAt(j, parts[k], |j| - |parts[k]|);
    } else {
      var front := parts[..|parts| - 1];
      assert front[k] == parts[k];
      JoinContainsParts(front, sep, k);
      var i :| Text.OccursAt(Join(front, sep), parts[k], i);
      assert j[..|Join(front, sep)|] == Join(front, sep);
      assert j[i..i + |parts[k]|] == Join(front, sep)[i..i + |parts[k]|];
      assert Text.OccursAt(j, parts[k], i);
    }
  }

  /** The blocks of the context, in the order the chunks were retrieved. */
  function ContextParts(r: SearchResult): (ps: seq<string>)
    requires |r.chunks| == |r.sources|
    ensures |ps| == |r.chunks|
  {
    seq(|r.chunks|, i requires 0 <= i < |r.chunks| => Part(r.sources[i], r.chunks[i]))
  }

  /** `get_rag_context`. The source list holds each file name once; Python builds it through a
      set, so its order is unspecified and only its elements are promised. */
  method GetRagContext(answer: Option<seq<Hit>>) returns (context: string, sources: seq<string>)
    ensures var r := Search(answer);
      r.chunks == [] ==> context == "" && sources == []
    ensures var r := Search(answer);
      r.chunks != [] ==> context == Join(ContextParts(r), PartSeparator)
    ensures Lists.NoDuplicates(sources)
    ensures var r := Search(answer);
      (forall i :: 0 <= i < |sources| ==> sources[i] in r.sources)
      && (forall i :: 0 <= i < |r.sources| ==> r.sources[i] in sources)
  {
    var r := Search(answer);
    if r.chunks == [] {
      return "", [];
    }
    var parts: seq<string> := [];
    sources := Lists.Dedup(r.sources);
    var i := 0;
    while i < |r.chunks|
      invariant 0 <= i <= |r.chunks|
      invariant |parts| == i
      invariant forall k :: 0 <= k < i ==> parts[k] == Part(r.sources[k], r.chunks[k])
    {
      parts := parts + [Part(r.sources[i], r.chunks[i])];
      i := i + 1;
    }
    assert parts == ContextParts(r);
    context := Join(parts, PartSeparator);
  }

  /** Every retrieved chunk appears in the context under its file name. */
  lemma ContextMentionsEveryChunk(answer: Option<seq<Hit>>, k: nat)
    requires k < |Search(answer).chunks|
    ensures var r := Search(answer);
      exists i :: Text.OccursAt(Join(ContextParts(r), PartSeparator), Part(r.sources[k], r.chunks[k]), i)
  {
    var r := Search(answer);
    JoinContainsParts(ContextParts(r), PartSeparator, k);
  }

  /** A metadata entry `list_documents` takes into account: present and naming a document. */
  predicate NamesDocument(m: Option<Meta>) {
    m.Some? && m.value.documentId.Some?
  }

  /** The summary built from a metadata entry, with the defaults for missing keys. */
  function Summary(m: Meta): DocSummary
    requires m.documentId.Some?
  {
    DocSummary(m.documentId.value, m.filename.GetOr(UnknownFilename), m.totalChunks.GetOr(0), m.uploadDate)
  }

  predicate Listed(docs: seq<DocSummary>, id: string) {
    exists k :: 0 <= k < |docs| && docs[k].id == id
  }

  /** The document list as `list_documents` builds it: one summary per document id, made from
      the first metadata naming it, in order of first appearance. */
  function Summaries(metas: seq<Option<Meta>>): (docs: seq<DocSummary>)
    ensures forall i, j :: 0 <= i < j < |docs| ==> docs[i].id != docs[j].id
    ensures forall k :: 0 <= k < |metas| && NamesDocument(metas[k]) ==> Listed(docs, metas[k].value.documentId.value)
    ensures forall i :: 0 <= i < |docs| ==>
      exists k :: 0 <= k < |metas| && NamesDocument(metas[k]) && docs[i] == Summary(metas[k].value)
  {
    if metas == [] then []
    else
      var front := metas[..|metas| - 1];
      var prev := Summaries(front);
      var m := metas[|metas| - 1];
      assert forall k :: 0 <= k < |front| ==> front[k] == metas[k];
      if NamesDocument(m) && !Listed(prev, m.value.documentId.value) then
        var docs := prev + [Summary(m.value)];
        assert forall k :: 0 <= k < |prev| ==> docs[k] == prev[k];
        assert docs[|prev|].id == m.value.documentId.value;
        assert forall id :: Listed(prev, id) ==> Listed(docs, id);
        docs
      else prev
  }

  /** The summary listed for a document comes from the first metadata that names it. */
  lemma {:induction false} SummariesFirstWins(metas: seq<Option<Meta>>, k: nat)
    requires k < |metas| && NamesDocument(metas[k])
    requires forall j :: 0 <= j < k ==> !(NamesDocument(metas[j]) && metas[j].value.documentId == metas[k].value.documentId)
    ensures Summary(metas[k].value) in Summaries(metas)
  {
    var front := metas[..|metas| - 1];
    assert forall j :: 0 <= j < |front| ==> front[j] == metas[j];
    if k == |metas| - 1 {
      var prev := Summaries(front);
      assert !Listed(prev, metas[k].value.documentId.value);
    } else {
      SummariesFirstWins(front, k);
    }
  }

  /** `list_documents`, given the collection's metadata (`None` when reading it raised). */
  method ListDocuments(metas: Option<seq<Option<Meta>>>) returns (docs: seq<DocSummary>)
    ensures docs == if metas.None? then [] else Summaries(metas.value)
  {
    if metas.None? {
      return [];
    }
    var ms := metas.value;
    docs := [];
    var i := 0;
    while i < |ms|
      invariant 0 <= i <= |ms|
      invariant docs == Summaries(ms[..i])
    {
      assert ms[..i + 1][..i] == ms[..i];
      var m := ms[i];
      if NamesDocument(m) && !Listed(docs, m.value.documentId.value) {
        docs := docs + [Summary(m.value)];
      }
      i := i + 1;
    }
    assert ms[..i] == ms;
  }
}
