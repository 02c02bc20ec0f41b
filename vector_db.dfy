// The chunk store of the AI service: text is cut into overlapping windows,
// each window is stored as a row keyed by `<document>_chunk_<i>`, and a
// document's rows are read back in chunk order.  The embedding model and
// the vector database itself are replaced by a plain list of rows; a
// failure of either is a boolean parameter.

module VectorDb {
  import opened Wrappers
  import opened Strings

  // ---------------------------------------------------------------------------
  // Chunking
  // ---------------------------------------------------------------------------

  /** Window size and overlap used when a document is added. */
  const ChunkSize: nat := 512
  const ChunkOverlap: nat := 50
  /** Length of the preview kept in each chunk's metadata. */
  const PreviewLength: nat := 100

  /** Number of windows of stride `step` needed to cover `n` characters: ceil(n / step). */
  function ChunkCount(n: nat, step: nat): (k: nat)
    requires step > 0
    ensures n == 0 <==> k == 0
  {
    assert n > 0 ==> n + step - 1 >= step;
    (n + step - 1) / step
  }

  /** Where window `i` starts: `i` strides of `step` characters. */
  function Start(i: nat, step: nat): nat
  {
    if i == 0 then 0 else Start(i - 1, step) + step
  }

  lemma {:induction false} StartIsProduct(i: nat, step: nat)
    ensures Start(i, step) == i * step
  {
    if i > 0 {
      StartIsProduct(i - 1, step);
      MulPred(i, step);
    }
  }

  lemma {:induction false} StartMono(a: nat, b: nat, step: nat)
    requires a <= b
    ensures Start(a, step) <= Start(b, step)
  {
    if a < b {
      StartMono(a, b - 1, step);
    }
  }

  /** `ChunkCount` strides reach `n`, and one fewer do not. */
  lemma ChunkCountCovers(n: nat, step: nat)
    requires step > 0
    ensures n <= Start(ChunkCount(n, step), step)
    ensures ChunkCount(n, step) == 0 || Start(ChunkCount(n, step) - 1, step) < n
  {
    var q := ChunkCount(n, step);
    var r := (n + step - 1) % step;
    assert n + step - 1 == q * step + r;
    StartIsProduct(q, step);
    if q > 0 {
      StartIsProduct(q - 1, step);
      MulPred(q, step);
    }
  }

  /** Any count of strides that reaches `n` while one fewer does not is `ChunkCount`. */
  lemma ChunkCountUnique(n: nat, step: nat, k: nat)
    requires step > 0
    requires n <= Start(k, step) && (k == 0 || Start(k - 1, step) < n)
    ensures k == ChunkCount(n, step)
  {
    var q := ChunkCount(n, step);
    ChunkCountCovers(n, step);
    if k < q {
      StartMono(k, q - 1, step);
    } else if q < k {
      StartMono(q, k - 1, step);
    }
  }

  lemma MulPred(k: int, step: int)
    ensures (k - 1) * step == k * step - step
  {
  }

  /** The window whose first stride holds position `p`. */
  lemma {:induction false} StrideOf(p: nat, step: nat) returns (i: nat)
    requires step > 0
    ensures Start(i, step) <= p < Start(i, step) + step
  {
    if p < step {
      i := 0;
    } else {
      var j := StrideOf(p - step, step);
      i := j + 1;
    }
  }

  /** The `i`-th window: the characters from `i * step` for `size` characters, clipped to the text. */
  function Window(text: string, size: nat, overlap: nat, i: nat): string
    requires overlap < size
  {
    var step := size - overlap;
    text[Min(Start(i, step), |text|)..Min(Start(i, step) + size, |text|)]
  }

  /** Every window of the text, in order. */
  function Chunks(text: string, size: nat, overlap: nat): (r: seq<string>)
    requires overlap < size
    ensures |r| == ChunkCount(|text|, size - overlap)
  {
    seq(ChunkCount(|text|, size - overlap), i requires 0 <= i => Window(text, size, overlap, i))
  }

  /**
   * Cuts `text` into windows of `size` characters, each starting `overlap`
   * characters before the previous one ended.  The loop ends only when the
   * stride `size - overlap` is positive.
   */
  method ChunkText(text: string, size: nat, overlap: nat) returns (chunks: seq<string>)
    requires overlap < size
    ensures chunks == Chunks(text, size, overlap)
  {
    ghost var step := size - overlap;
    chunks := [];
    var start := 0;
    while start < |text|
      invariant start == Start(|chunks|, step)
      invariant |chunks| == 0 || Start(|chunks| - 1, step) < |text|
      invariant forall i :: 0 <= i < |chunks| ==> chunks[i] == Window(text, size, overlap, i)
      decreases |text| - start
    {
      var end := start + size;
      var chunk := text[start..Min(end, |text|)];
      assert chunk == Window(text, size, overlap, |chunks|);
      chunks := chunks + [chunk];
      start := end - overlap;
    }
    ChunkCountUnique(|text|, step, |chunks|);
  }

  /** Each window of a chunked text starts inside the text, is non-empty and has at most `size` characters. */
  lemma WindowShape(text: string, size: nat, overlap: nat, i: nat)
    requires overlap < size
    requires i < ChunkCount(|text|, size - overlap)
    ensures Start(i, size - overlap) < |text|
    ensures Window(text, size, overlap, i) == text[Start(i, size - overlap)..Min(Start(i, size - overlap) + size, |text|)]
    ensures 0 < |Window(text, size, overlap, i)| <= size
  {
    var step := size - overlap;
    var k := ChunkCount(|text|, step);
    ChunkCountCovers(|text|, step);
    StartMono(i, k - 1, step);
  }

  /** Empty text has no chunks. */
  lemma EmptyTextHasNoChunks(size: nat, overlap: nat)
    requires overlap < size
    ensures Chunks("", size, overlap) == []
  {
  }

  /** Every character of the text lies in some chunk, at the offset its position dictates. */
  lemma EveryCharacterCovered(text: string, size: nat, overlap: nat, p: nat)
    requires overlap < size
    requires p < |text|
    ensures exists i :: (0 <= i < |Chunks(text, size, overlap)| &&
      Start(i, size - overlap) <= p < Start(i, size - overlap) + |Chunks(text, size, overlap)[i]| &&
      Chunks(text, size, overlap)[i][p - Start(i, size - overlap)] == text[p])
  {
    var step := size - overlap;
    var i := StrideOf(p, step);
    var k := ChunkCount(|text|, step);
    ChunkCountCovers(|text|, step);
    if i >= k {
      StartMono(k, i, step);
      assert false;
    }
    WindowShape(text, size, overlap, i);
    assert Chunks(text, size, overlap)[i] == Window(text, size, overlap, i);
  }

  /** The part of a chunk past the stride is the start of the next chunk: neighbours share the overlap. */
  lemma NeighboursOverlap(text: string, size: nat, overlap: nat, i: nat)
    requires overlap < size
    requires i + 1 < |Chunks(text, size, overlap)|
    ensures size - overlap <= |Chunks(text, size, overlap)[i]|
    ensures Chunks(text, size, overlap)[i][size - overlap..] <= Chunks(text, size, overlap)[i + 1]
  {
    var step := size - overlap;
    WindowShape(text, size, overlap, i);
    WindowShape(text, size, overlap, i + 1);
    assert Start(i + 1, step) == Start(i, step) + step;
  }

  // ---------------------------------------------------------------------------
  // Rows
  // ---------------------------------------------------------------------------

  /** A metadata value: the store keeps strings and integers. */
  datatype Scalar = IntValue(n: int) | StrValue(s: string)

  type Metadata = map<string, Scalar>

  /** One stored chunk: its id, its text and its metadata. */
  datatype Row = Row(id: string, text: string, metadata: Metadata)

  /** The id of chunk `i` of a document. */
  function ChunkId(documentId: string, i: nat): string
  {
    documentId + "_chunk_" + NatToString(i)
  }

  /** Distinct chunk numbers give distinct ids. */
  lemma ChunkIdsDistinct(documentId: string, i: nat, j: nat)
    requires i != j
    ensures ChunkId(documentId, i) != ChunkId(documentId, j)
  {
    var cut := |documentId| + 7;
    if ChunkId(documentId, i) == ChunkId(documentId, j) {
      assert ChunkId(documentId, i)[cut..] == NatToString(i);
      assert ChunkId(documentId, j)[cut..] == NatToString(j);
      NatToStringInjective(i, j);
    }
  }

  /** The caller's metadata with the chunk number and a preview of the chunk added over it. */
  function ChunkMetadata(metadata: Metadata, i: nat, chunk: string): (m: Metadata)
    ensures m.Keys == metadata.Keys + {"chunk_index", "chunk_text"}
    ensures m["chunk_index"] == IntValue(i)
    ensures m["chunk_text"].StrValue? && m["chunk_text"].s <= chunk
    ensures |m["chunk_text"].s| == Min(|chunk|, PreviewLength)
    ensures forall k :: k in metadata && k != "chunk_index" && k != "chunk_text" ==> m[k] == metadata[k]
  {
    metadata["chunk_index" := IntValue(i)]["chunk_text" := StrValue(Prefix(chunk, PreviewLength))]
  }

  /** The rows written for a document: one per chunk, numbered from zero. */
  function NewRows(documentId: string, text: string, metadata: Metadata): (r: seq<Row>)
    ensures |r| == ChunkCount(|text|, ChunkSize - ChunkOverlap)
  {
    var cs := Chunks(text, ChunkSize, ChunkOverlap);
    seq(|cs|, i requires 0 <= i < |cs| => Row(ChunkId(documentId, i), cs[i], ChunkMetadata(metadata, i, cs[i])))
  }

  /** Row `i` of a document carries chunk `i`, its id and its number; the ids are pairwise distinct. */
  lemma NewRowsAt(documentId: string, text: string, metadata: Metadata, i: nat, j: nat)
    requires i < j < |NewRows(documentId, text, metadata)|
    ensures NewRows(documentId, text, metadata)[i].text == Chunks(text, ChunkSize, ChunkOverlap)[i]
    ensures NewRows(documentId, text, metadata)[i].metadata["chunk_index"] == IntValue(i)
    ensures NewRows(documentId, text, metadata)[i].id != NewRows(documentId, text, metadata)[j].id
  {
    ChunkIdsDistinct(documentId, i, j);
  }

  /** A row belongs to a document when its metadata names that document. */
  predicate BelongsTo(row: Row, documentId: string)
  {
    "document_id" in row.metadata && row.metadata["document_id"] == StrValue(documentId)
  }

  /** The rows a `document_id` filter returns, in stored order. */
  function Where(rows: seq<Row>, documentId: string): (r: seq<Row>)
    ensures forall x :: x in r <==> x in rows && BelongsTo(x, documentId)
    ensures |r| <= |rows|
  {
    if |rows| == 0 then []
    else (if BelongsTo(rows[0], documentId) then [rows[0]] else []) + Where(rows[1..], documentId)
  }

  /** The rows left once a document's rows are removed, in stored order. */
  function Without(rows: seq<Row>, documentId: string): (r: seq<Row>)
    ensures forall x :: x in r <==> x in rows && !BelongsTo(x, documentId)
    ensures |r| <= |rows|
  {
    if |rows| == 0 then []
    else (if BelongsTo(rows[0], documentId) then [] else [rows[0]]) + Without(rows[1..], documentId)
  }

  lemma {:induction false} WhereAppend(a: seq<Row>, b: seq<Row>, documentId: string)
    ensures Where(a + b, documentId) == Where(a, documentId) + Where(b, documentId)
  {
    if |a| > 0 {
      assert (a + b)[0] == a[0];
      assert (a + b)[1..] == a[1..] + b;
      WhereAppend(a[1..], b, documentId);
    } else {
      assert a + b == b;
    }
  }

  /** Rows that all belong to the document pass the filter unchanged. */
  lemma {:induction false} WhereAll(rows: seq<Row>, documentId: string)
    requires forall i :: 0 <= i < |rows| ==> BelongsTo(rows[i], documentId)
    ensures Where(rows, documentId) == rows
  {
    if |rows| > 0 {
      WhereAll(rows[1..], documentId);
      assert rows == [rows[0]] + rows[1..];
    }
  }

  /** Rows none of which belong to the document are all filtered out. */
  lemma {:induction false} WhereNone(rows: seq<Row>, documentId: string)
    requires forall i :: 0 <= i < |rows| ==> !BelongsTo(rows[i], documentId)
    ensures Where(rows, documentId) == []
  {
    if |rows| > 0 {
      WhereNone(rows[1..], documentId);
    }
  }

  /** Every new row keeps the caller's `document_id`. */
  lemma NewRowsBelong(documentId: string, owner: string, text: string, metadata: Metadata, i: nat)
    requires i < |NewRows(documentId, text, metadata)|
    ensures BelongsTo(NewRows(documentId, text, metadata)[i], owner) <==>
      "document_id" in metadata && metadata["document_id"] == StrValue(owner)
  {
  }

  // ---------------------------------------------------------------------------
  // Reading a document back
  // ---------------------------------------------------------------------------

  /** A chunk as returned to callers. */
  datatype ChunkView = ChunkView(text: string, metadata: Metadata, id: Option<string>)

  function View(row: Row): ChunkView
  {
    ChunkView(row.text, row.metadata, Some(row.id))
  }

  function Views(rows: seq<Row>): (r: seq<ChunkView>)
    ensures |r| == |rows|
    ensures forall i :: 0 <= i < |rows| ==> r[i] == View(rows[i])
  {
    seq(|rows|, i requires 0 <= i < |rows| => View(rows[i]))
  }

  /** The sort key: the chunk number, 0 when the metadata has none. */
  function Key(c: ChunkView): int
  {
    if "chunk_index" in c.metadata && c.metadata["chunk_index"].IntValue? then c.metadata["chunk_index"].n else 0
  }

  /** Each chunk's key is at most the next one's. */
  predicate SortedByKey(s: seq<ChunkView>)
  {
    forall i :: 0 < i < |s| ==> Key(s[i - 1]) <= Key(s[i])
  }

  /** The chunks of `s` whose key is `k`, in order. */
  function WithKey(s: seq<ChunkView>, k: int): seq<ChunkView>
  {
    if |s| == 0 then [] else (if Key(s[0]) == k then [s[0]] else []) + WithKey(s[1..], k)
  }

  /** Places `x` in front of the first chunk whose key is not smaller. */
  function Insert(x: ChunkView, s: seq<ChunkView>): (r: seq<ChunkView>)
    ensures |r| == |s| + 1
    ensures r[0] == x || (|s| > 0 && r[0] == s[0])
  {
    if |s| == 0 then [x]
    else if Key(x) <= Key(s[0]) then [x] + s
    else [s[0]] + Insert(x, s[1..])
  }

  lemma {:induction false} InsertSorted(x: ChunkView, s: seq<ChunkView>)
    requires SortedByKey(s)
    ensures SortedByKey(Insert(x, s))
  {
    if |s| > 0 && Key(x) > Key(s[0]) {
      InsertSorted(x, s[1..]);
      var rest := Insert(x, s[1..]);
      assert Key(s[0]) <= Key(rest[0]);
      assert Insert(x, s) == [s[0]] + rest;
    }
  }

  lemma {:induction false} InsertPermutes(x: ChunkView, s: seq<ChunkView>)
    ensures multiset(Insert(x, s)) == multiset(s) + multiset{x}
  {
    if |s| > 0 && Key(x) > Key(s[0]) {
      InsertPermutes(x, s[1..]);
      assert s == [s[0]] + s[1..];
    }
  }

  /** A stable sort by chunk number, as Python's `sorted` with a key. */
  function SortByKey(s: seq<ChunkView>): (r: seq<ChunkView>)
    ensures SortedByKey(r)
    ensures multiset(r) == multiset(s)
  {
    if |s| == 0 then []
    else
      var rest := SortByKey(s[1..]);
      InsertSorted(s[0], rest);
      InsertPermutes(s[0], rest);
      assert s == [s[0]] + s[1..];
      Insert(s[0], rest)
  }

  lemma {:induction false} InsertStable(x: ChunkView, s: seq<ChunkView>, k: int)
    ensures WithKey(Insert(x, s), k) == WithKey([x], k) + WithKey(s, k)
  {
    if |s| > 0 && Key(x) > Key(s[0]) {
      InsertStable(x, s[1..], k);
      assert ([s[0]] + Insert(x, s[1..]))[1..] == Insert(x, s[1..]);
    } else if |s| > 0 {
      assert ([x] + s)[1..] == s;
    }
  }

  /** Sorting keeps the relative order of chunks with equal keys. */
  lemma {:induction false} SortStable(s: seq<ChunkView>, k: int)
    ensures WithKey(SortByKey(s), k) == WithKey(s, k)
  {
    if |s| > 0 {
      SortStable(s[1..], k);
      InsertStable(s[0], SortByKey(s[1..]), k);
    }
  }

  /** Already ordered chunks come back as they are. */
  lemma {:induction false} SortSorted(s: seq<ChunkView>)
    requires SortedByKey(s)
    ensures SortByKey(s) == s
  {
    if |s| > 0 {
      assert SortedByKey(s[1..]);
      SortSorted(s[1..]);
    }
  }

  /** The chunks of a document, ordered by chunk number. */
  function DocumentChunks(rows: seq<Row>, documentId: string): (r: seq<ChunkView>)
    ensures SortedByKey(r)
    ensures multiset(r) == multiset(Views(Where(rows, documentId)))
  {
    SortByKey(Views(Where(rows, documentId)))
  }

  // ---------------------------------------------------------------------------
  // The store
  // ---------------------------------------------------------------------------

  class ChunkStore {
    var rows: seq<Row>

    constructor()
      ensures rows == []
    {
      rows := [];
    }

    /**
     * Adds a document's chunks.  `failed` stands for the embedding model or
     * the database raising; then nothing is written and the answer is false.
     */
    method AddDocument(documentId: string, text: string, metadata: Metadata, failed: bool) returns (ok: bool)
      modifies this
      ensures ok == !failed
      ensures rows == if failed then old(rows) else old(rows) + NewRows(documentId, text, metadata)
    {
      if failed {
        return false;
      }
      var chunks := ChunkText(text, ChunkSize, ChunkOverlap);
      var added := seq(|chunks|, i requires 0 <= i < |chunks| => Row(ChunkId(documentId, i), chunks[i], ChunkMetadata(metadata, i, chunks[i])));
      rows := rows + added;
      return true;
    }

    /** Removes every row whose metadata names the document; `failed` stands for the database raising. */
    method DeleteDocument(documentId: string, failed: bool) returns (ok: bool)
      modifies this
      ensures ok == !failed
      ensures rows == if failed then old(rows) else Without(old(rows), documentId)
    {
      if failed {
        return false;
      }
      rows := Without(rows, documentId);
      return true;
    }

    /** Deletes the document's rows and then adds its new chunks. */
    method UpdateDocument(documentId: string, text: string, metadata: Metadata,
                          deleteFailed: bool, addFailed: bool) returns (ok: bool)
      modifies this
      ensures ok == !addFailed
      ensures rows == UpdatedRows(old(rows), documentId, text, metadata, deleteFailed, addFailed)
    {
      var _ := DeleteDocument(documentId, deleteFailed);
      ok := AddDocument(documentId, text, metadata, addFailed);
    }
  }

  /** The rows after an update: the delete's effect, then the add's. */
  function UpdatedRows(rows: seq<Row>, documentId: string, text: string, metadata: Metadata,
                       deleteFailed: bool, addFailed: bool): seq<Row>
  {
    var kept := if deleteFailed then rows else Without(rows, documentId);
    if addFailed then kept else kept + NewRows(documentId, text, metadata)
  }

  /** When the metadata names the document, a successful update leaves exactly the new chunks for it. */
  lemma UpdateReplaces(rows: seq<Row>, documentId: string, text: string, metadata: Metadata)
    requires "document_id" in metadata && metadata["document_id"] == StrValue(documentId)
    ensures Where(UpdatedRows(rows, documentId, text, metadata, false, false), documentId) == NewRows(documentId, text, metadata)
  {
    var added := NewRows(documentId, text, metadata);
    var kept := Without(rows, documentId);
    WhereAppend(kept, added, documentId);
    assert forall i :: 0 <= i < |kept| ==> kept[i] in kept;
    WhereNone(kept, documentId);
    WhereAll(added, documentId);
  }

  /** A successful update of one document leaves every other document's rows as they were. */
  lemma UpdateKeepsOthers(rows: seq<Row>, documentId: string, other: string, text: string, metadata: Metadata)
    requires "document_id" in metadata && metadata["document_id"] == StrValue(documentId)
    requires other != documentId
    ensures Where(UpdatedRows(rows, documentId, text, metadata, false, false), other) == Where(rows, other)
  {
    var added := NewRows(documentId, text, metadata);
    var kept := Without(rows, documentId);
    WhereAppend(kept, added, other);
    WhereNone(added, other);
    WhereWithout(rows, documentId, other);
  }

  /** The new rows are already in chunk order. */
  lemma NewRowsOrdered(documentId: string, text: string, metadata: Metadata)
    ensures SortedByKey(Views(NewRows(documentId, text, metadata)))
  {
    var vs := Views(NewRows(documentId, text, metadata));
    forall i | 0 < i < |vs| ensures Key(vs[i - 1]) <= Key(vs[i]) {
      assert Key(vs[i - 1]) == i - 1;
      assert Key(vs[i]) == i;
    }
  }

  /** After a successful update the document's chunks read back are the new chunks, in chunk order. */
  lemma UpdateReadsBack(rows: seq<Row>, documentId: string, text: string, metadata: Metadata)
    requires "document_id" in metadata && metadata["document_id"] == StrValue(documentId)
    ensures DocumentChunks(UpdatedRows(rows, documentId, text, metadata, false, false), documentId)
      == Views(NewRows(documentId, text, metadata))
  {
    UpdateReplaces(rows, documentId, text, metadata);
    NewRowsOrdered(documentId, text, metadata);
    SortSorted(Views(NewRows(documentId, text, metadata)));
  }

  /** Removing one document's rows leaves every other document's rows untouched. */
  lemma {:induction false} WhereWithout(rows: seq<Row>, documentId: string, other: string)
    requires other != documentId
    ensures Where(Without(rows, documentId), other) == Where(rows, other)
  {
    if |rows| > 0 {
      WhereWithout(rows[1..], documentId, other);
      var head := if BelongsTo(rows[0], documentId) then [] else [rows[0]];
      WhereAppend(head, Without(rows[1..], documentId), other);
      assert [rows[0]][1..] == [];
    }
  }

  /** An update whose add fails has still removed the document's old rows. */
  lemma FailedUpdateLosesChunks(rows: seq<Row>, documentId: string, text: string, metadata: Metadata)
    ensures Where(UpdatedRows(rows, documentId, text, metadata, false, true), documentId) == []
  {
    var kept := Without(rows, documentId);
    assert forall i :: 0 <= i < |kept| ==> kept[i] in kept;
    WhereNone(kept, documentId);
  }
}
