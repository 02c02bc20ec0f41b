// The history page: it loads the user's documents, shows each under an id
// cut to the 24 characters of a database object id, and deletes a document
// after checking its id locally.  The two endpoints it reads and the delete
// request are parameters: their outcomes arrive as results.

module History {
  import opened Wrappers
  import opened Strings
  import opened Js
  import Documents

  /** The length of a database object id. */
  const IdLength: nat := 24

  const DeleteFailedDefault := "Failed to delete document. Please try again."

  /** Cuts a string to the first 24 characters when it is longer. */
  function Truncate(s: string): (r: string)
    ensures |r| == Min(|s|, IdLength)
    ensures r <= s
    ensures |s| <= IdLength ==> r == s
  {
    if |s| > IdLength then s[..IdLength] else s
  }

  /** The id a loaded document is shown under: `String(doc.id || doc._id)`, truncated. */
  function DisplayId(doc: JsValue): (r: string)
    ensures |r| <= IdLength && r <= ToStr(Or(Prop(doc, "id"), Prop(doc, "_id")))
    ensures Truthy(Prop(doc, "id")) ==> r == Truncate(ToStr(Prop(doc, "id")))
  {
    Truncate(ToStr(Or(Prop(doc, "id"), Prop(doc, "_id"))))
  }

  /** The history endpoint first, the documents listing when it fails. */
  function Fetch(history: Result<JsValue, string>, myDocuments: Result<JsValue, string>): (r: Result<JsValue, string>)
    ensures history.Ok? ==> r == history
    ensures history.Err? ==> r == myDocuments
  {
    if history.Ok? then history else myDocuments
  }

  /**
   * The listing as the page keeps it: every document with its id replaced by
   * the display id.  `None` is a TypeError: a null or undefined response, a
   * truthy `documents` that is not an array, or a null or undefined entry.
   */
  function LoadedItems(res: JsValue): (r: Option<seq<JsValue>>)
    ensures Nullish(res) ==> r.None?
    ensures !Nullish(res) && Truthy(Prop(res, "documents")) && !Prop(res, "documents").Arr? ==> r.None?
    ensures !Nullish(res) && !Truthy(Prop(res, "documents")) ==> r.Some? && |r.value| == 0
    ensures r.Some? ==> |r.value| == |Or(Prop(res, "documents"), Arr([])).items|
  {
    if Nullish(res) then None
    else
      var raw := Or(Prop(res, "documents"), Arr([]));
      if !raw.Arr? then None
      else if exists i :: 0 <= i < |raw.items| && Nullish(raw.items[i]) then None
      else Some(seq(|raw.items|, i requires 0 <= i < |raw.items| =>
        Obj(Spread(raw.items[i])["id" := Str(DisplayId(raw.items[i]))])))
  }

  /** What loading yields, `None` when both endpoints fail or the response cannot be read. */
  function Load(history: Result<JsValue, string>, myDocuments: Result<JsValue, string>): (r: Option<seq<JsValue>>)
    ensures history.Ok? ==> r == LoadedItems(history.value)
    ensures history.Err? && myDocuments.Ok? ==> r == LoadedItems(myDocuments.value)
    ensures history.Err? && myDocuments.Err? ==> r.None?
  {
    var res := Fetch(history, myDocuments);
    if res.Err? then None else LoadedItems(res.value)
  }

  /** The id an item is matched by when deleting: its id, truncated. */
  function ShortId(item: JsValue): (r: string)
    ensures |r| <= IdLength && r <= ToStr(Prop(item, "id"))
  {
    Truncate(ToStr(Prop(item, "id")))
  }

  /**
   * Every loaded item is an object whose id is its document's display id,
   * at most 24 characters long, and is matched by that same id.
   */
  lemma LoadedIds(res: JsValue, i: nat)
    requires LoadedItems(res).Some? && i < |LoadedItems(res).value|
    ensures var item := LoadedItems(res).value[i];
      var doc := Or(Prop(res, "documents"), Arr([])).items[i];
      item.Obj? && Prop(item, "id") == Str(DisplayId(doc)) &&
      |DisplayId(doc)| <= IdLength && ShortId(item) == DisplayId(doc)
  {
  }

  /** The error message of a rejected id. */
  function InvalidFormat(length: nat): string
  {
    "Invalid document ID format: " + NatToString(length) + " characters (expected 24)"
  }

  /**
   * The id a delete sends: the clicked item's id, trimmed and truncated.
   * The page passes the id it stored for the item, which is already a
   * string, so `String(...)` leaves it as it is.
   */
  function DeleteCandidate(documentId: string): (r: string)
    ensures |r| <= IdLength
  {
    Truncate(JsTrim(documentId))
  }

  /** The id a delete sends, or the message it fails with before any request. */
  function DeleteTarget(documentId: string): (r: Result<string, string>)
    ensures r.Ok? <==> IsObjectIdHex(DeleteCandidate(documentId))
    ensures r.Ok? ==> r.value == DeleteCandidate(documentId)
    ensures r.Err? ==> r.error == InvalidFormat(|DeleteCandidate(documentId)|)
  {
    var id := DeleteCandidate(documentId);
    if |id| == 0 || |id| != IdLength || !IsObjectIdHex(id) then Err(InvalidFormat(|id|)) else Ok(id)
  }

  /** An id this page sends is accepted by the server as it stands. */
  lemma ServerAcceptsSentId(documentId: string)
    requires DeleteTarget(documentId).Ok?
    ensures Documents.NormalizeId(DeleteTarget(documentId).value) == Some(DeleteTarget(documentId).value)
  {
  }

  /** The items left after deleting `id`: exactly those not matched by it, in order. */
  function Remaining(items: seq<JsValue>, id: string): (r: seq<JsValue>)
    ensures forall x :: x in r <==> x in items && ShortId(x) != id
    ensures |r| <= |items|
  {
    if |items| == 0 then []
    else (if ShortId(items[0]) != id then [items[0]] else []) + Remaining(items[1..], id)
  }

  /** One item is kept exactly when it does not match. */
  lemma RemainingOfOne(x: JsValue, id: string)
    ensures Remaining([x], id) == if ShortId(x) != id then [x] else []
  {
    assert [x][1..] == [];
  }

  /**
   * Filtering a concatenation filters each part: with RemainingOfOne, the
   * items left keep their order, each once per occurrence.
   */
  lemma {:induction false} RemainingAppend(a: seq<JsValue>, b: seq<JsValue>, id: string)
    ensures Remaining(a + b, id) == Remaining(a, id) + Remaining(b, id)
  {
    if |a| > 0 {
      var head := if ShortId(a[0]) != id then [a[0]] else [];
      assert (a + b)[1..] == a[1..] + b;
      assert (a + b)[0] == a[0];
      assert Remaining(a + b, id) == head + Remaining(a[1..] + b, id);
      assert Remaining(a, id) == head + Remaining(a[1..], id);
      RemainingAppend(a[1..], b, id);
    } else {
      assert a + b == b;
    }
  }

  /** Removing an id that matches nothing changes nothing. */
  lemma {:induction false} RemainingNothing(items: seq<JsValue>, id: string)
    requires forall i :: 0 <= i < |items| ==> ShortId(items[i]) != id
    ensures Remaining(items, id) == items
  {
    if |items| > 0 {
      RemainingNothing(items[1..], id);
      assert items == [items[0]] + items[1..];
    }
  }

  /** The alert a failed delete request shows: the server's message, else the default. */
  function FailureAlert(message: string): string
  {
    if |message| > 0 then message else DeleteFailedDefault
  }

  /** The id a delete click requests, if it gets as far as a request. */
  function Sent(documentId: string, confirmed: bool): (r: Option<string>)
    ensures r.Some? <==> confirmed && IsObjectIdHex(DeleteCandidate(documentId))
    ensures r.Some? ==> r.value == DeleteCandidate(documentId) && |r.value| == IdLength
  {
    if confirmed && DeleteTarget(documentId).Ok? then Some(DeleteTarget(documentId).value) else None
  }

  /** The local check before a delete request: trim, keep at most 24 characters, require 24 hex digits. */
  method CheckId(documentId: string) returns (r: Result<string, string>)
    ensures r == DeleteTarget(documentId)
  {
    var id := JsTrim(documentId);
    if |id| > IdLength {
      id := id[..IdLength];
    }
    if |id| == 0 || |id| != IdLength || !IsObjectIdHex(id) {
      return Err(InvalidFormat(|id|));
    }
    return Ok(id);
  }

  /** What a delete click tells the user. */
  function DeleteAlert(documentId: string, confirmed: bool, server: Result<(), string>): (r: Option<string>)
    ensures r.None? <==> !confirmed || (Sent(documentId, confirmed).Some? && server.Ok?)
    ensures confirmed && Sent(documentId, confirmed).None? ==> r == Some(InvalidFormat(|DeleteCandidate(documentId)|))
    ensures Sent(documentId, confirmed).Some? && server.Err? ==> r == Some(FailureAlert(server.error))
  {
    if !confirmed then None
    else if DeleteTarget(documentId).Err? then Some(DeleteTarget(documentId).error)
    else if server.Err? then Some(FailureAlert(server.error))
    else None
  }

  class HistoryPage {
    var items: seq<JsValue>
    var loading: bool
    var openMenuId: JsValue

    constructor()
      ensures items == [] && loading && openMenuId == Null
    {
      items := [];
      loading := true;
      openMenuId := Null;
    }

    /** The load run when the page opens; on failure the list stays as it was. */
    method LoadItems(history: Result<JsValue, string>, myDocuments: Result<JsValue, string>)
      modifies this
      ensures items == if Load(history, myDocuments).Some? then Load(history, myDocuments).value else old(items)
      ensures !loading && openMenuId == old(openMenuId)
    {
      var loaded := Load(history, myDocuments);
      if loaded.Some? {
        items := loaded.value;
      }
      loading := false;
    }

    /**
     * The delete button.  Nothing happens unless confirmed; an id that is not
     * 24 hex digits after trimming and truncating fails before any request.
     * `server` is the request's outcome, its failure carrying the message.
     * `sent` is the id requested, `alert` what the user is told.
     */
    method HandleDelete(documentId: string, confirmed: bool, server: Result<(), string>)
      returns (sent: Option<string>, alert: Option<string>)
      modifies this
      ensures sent == Sent(documentId, confirmed)
      ensures alert == DeleteAlert(documentId, confirmed, server)
      ensures items == if sent.Some? && server.Ok? then Remaining(old(items), sent.value) else old(items)
      ensures openMenuId == if sent.Some? && server.Ok? then Null else old(openMenuId)
      ensures loading == old(loading)
    {
      sent, alert := None, None;
      if !confirmed {
        return;
      }
      var target := CheckId(documentId);
      if target.Err? {
        alert := Some(target.error);
        return;
      }
      var id := target.value;
      sent := Some(id);
      if server.Err? {
        alert := Some(FailureAlert(server.error));
        return;
      }
      items := Remaining(items, id);
      openMenuId := Null;
    }
  }
}
