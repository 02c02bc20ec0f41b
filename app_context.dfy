// The web app's shared state and the reducer every page dispatches to, with
// the sequence of actions that restores saved data when the app starts.
// Reading and writing the browser's storage is left to the caller: the
// saved data arrives already parsed, or not at all.

module AppContext {
  import opened Wrappers
  import opened Js

  datatype AppState = AppState(
    user: JsValue,
    documents: seq<JsValue>,
    summaries: seq<JsValue>,
    quizzes: seq<JsValue>,
    currentDocument: JsValue,
    isLoading: JsValue,
    error: JsValue,
    history: seq<JsValue>)

  const Initial := AppState(Null, [], [], [], Null, Bool(false), Null, [])

  datatype Action = Action(kind: string, payload: JsValue)

  const SetUser := "SET_USER"
  const SetLoading := "SET_LOADING"
  const SetError := "SET_ERROR"
  const ClearError := "CLEAR_ERROR"
  const AddDocument := "ADD_DOCUMENT"
  const SetCurrentDocument := "SET_CURRENT_DOCUMENT"
  const AddSummary := "ADD_SUMMARY"
  const AddQuiz := "ADD_QUIZ"
  const AddToHistory := "ADD_TO_HISTORY"
  const UpdateQuizScore := "UPDATE_QUIZ_SCORE"

  /** One quiz after a score update: the matching quiz gains the score and is marked completed. */
  function ScoreQuiz(quiz: JsValue, quizId: JsValue, score: JsValue): JsValue
  {
    if StrictEquals(Prop(quiz, "id"), quizId)
    then Obj(Spread(quiz)["score" := score]["completed" := Bool(true)])
    else quiz
  }

  function ScoreQuizzes(quizzes: seq<JsValue>, quizId: JsValue, score: JsValue): (r: seq<JsValue>)
    ensures |r| == |quizzes|
    ensures forall i :: 0 <= i < |quizzes| ==> r[i] == ScoreQuiz(quizzes[i], quizId, score)
  {
    seq(|quizzes|, i requires 0 <= i < |quizzes| => ScoreQuiz(quizzes[i], quizId, score))
  }

  /**
   * The reducer.  `None` is a TypeError: a score update over a non-empty
   * quiz list whose payload, or one of whose quizzes, is null or undefined.
   * With no quizzes the mapping callback never runs, and nothing throws.
   */
  function Reduce(s: AppState, a: Action): (r: Option<AppState>)
    ensures r.None? <==>
      && a.kind == UpdateQuizScore && |s.quizzes| > 0
      && (Nullish(a.payload) || exists i :: 0 <= i < |s.quizzes| && Nullish(s.quizzes[i]))
  {
    if a.kind == SetUser then Some(s.(user := a.payload))
    else if a.kind == SetLoading then Some(s.(isLoading := a.payload))
    else if a.kind == SetError then Some(s.(error := a.payload, isLoading := Bool(false)))
    else if a.kind == ClearError then Some(s.(error := Null))
    else if a.kind == AddDocument then Some(s.(documents := s.documents + [a.payload], currentDocument := a.payload))
    else if a.kind == SetCurrentDocument then Some(s.(currentDocument := a.payload))
    else if a.kind == AddSummary then Some(s.(summaries := s.summaries + [a.payload]))
    else if a.kind == AddQuiz then Some(s.(quizzes := s.quizzes + [a.payload]))
    else if a.kind == AddToHistory then Some(s.(history := [a.payload] + s.history))
    else if a.kind == UpdateQuizScore then
      if |s.quizzes| > 0 && (Nullish(a.payload) || exists i :: 0 <= i < |s.quizzes| && Nullish(s.quizzes[i])) then None
      else Some(s.(quizzes := ScoreQuizzes(s.quizzes, Prop(a.payload, "quizId"), Prop(a.payload, "score"))))
    else Some(s)
  }

  /** The fields of the state each action may change, read off the action table. */
  function Touches(kind: string): set<string>
  {
    if kind == SetUser then {"user"}
    else if kind == SetLoading then {"isLoading"}
    else if kind == SetError then {"error", "isLoading"}
    else if kind == ClearError then {"error"}
    else if kind == AddDocument then {"documents", "currentDocument"}
    else if kind == SetCurrentDocument then {"currentDocument"}
    else if kind == AddSummary then {"summaries"}
    else if kind == AddQuiz then {"quizzes"}
    else if kind == AddToHistory then {"history"}
    else if kind == UpdateQuizScore then {"quizzes"}
    else {}
  }

  /** `a` and `b` agree on every field outside `changed`. */
  predicate AgreeOutside(a: AppState, b: AppState, changed: set<string>)
  {
    ("user" !in changed ==> a.user == b.user) &&
    ("documents" !in changed ==> a.documents == b.documents) &&
    ("summaries" !in changed ==> a.summaries == b.summaries) &&
    ("quizzes" !in changed ==> a.quizzes == b.quizzes) &&
    ("currentDocument" !in changed ==> a.currentDocument == b.currentDocument) &&
    ("isLoading" !in changed ==> a.isLoading == b.isLoading) &&
    ("error" !in changed ==> a.error == b.error) &&
    ("history" !in changed ==> a.history == b.history)
  }

  /** Every action changes only the fields its case names; an unknown action changes nothing. */
  lemma ReduceFrames(s: AppState, a: Action)
    ensures Reduce(s, a).Some? ==> AgreeOutside(s, Reduce(s, a).value, Touches(a.kind))
    ensures Touches(a.kind) == {} ==> Reduce(s, a) == Some(s)
  {
  }

  /** Setting an error records it and ends loading; clearing it leaves null. */
  lemma ErrorActions(s: AppState, payload: JsValue)
    ensures Reduce(s, Action(SetError, payload)) == Some(s.(error := payload, isLoading := Bool(false)))
    ensures Reduce(s, Action(ClearError, payload)).value.error == Null
  {
  }

  /** Documents, summaries and quizzes append; history prepends; adding a document makes it current. */
  lemma ListActions(s: AppState, p: JsValue)
    ensures Reduce(s, Action(AddDocument, p)).value.documents == s.documents + [p]
    ensures Reduce(s, Action(AddDocument, p)).value.currentDocument == p
    ensures Reduce(s, Action(AddSummary, p)).value.summaries == s.summaries + [p]
    ensures Reduce(s, Action(AddQuiz, p)).value.quizzes == s.quizzes + [p]
    ensures Reduce(s, Action(AddToHistory, p)).value.history == [p] + s.history
  {
  }

  /**
   * A score update keeps the number of quizzes; exactly the quizzes whose id
   * is the payload's `quizId` get its score and are completed, and the
   * others stay as they were.
   */
  lemma ScoreUpdate(s: AppState, payload: JsValue, i: nat)
    requires !Nullish(payload)
    requires forall j :: 0 <= j < |s.quizzes| ==> !Nullish(s.quizzes[j])
    requires i < |s.quizzes|
    ensures Reduce(s, Action(UpdateQuizScore, payload)).Some?
    ensures |Reduce(s, Action(UpdateQuizScore, payload)).value.quizzes| == |s.quizzes|
    ensures var q := Reduce(s, Action(UpdateQuizScore, payload)).value.quizzes[i];
      if StrictEquals(Prop(s.quizzes[i], "id"), Prop(payload, "quizId"))
      then Prop(q, "score") == Prop(payload, "score") && Prop(q, "completed") == Bool(true)
      else q == s.quizzes[i]
  {
  }

  /** A score update on a quiz list holding null or undefined throws. */
  lemma ScoreUpdateThrows(s: AppState, payload: JsValue, i: nat)
    requires i < |s.quizzes| && Nullish(s.quizzes[i])
    ensures Reduce(s, Action(UpdateQuizScore, payload)) == None
  {
  }

  /**
   * A null or undefined payload throws only when some quiz is there to be
   * compared; over no quizzes the update leaves the state as it is.
   */
  lemma NullScorePayload(s: AppState, payload: JsValue)
    requires Nullish(payload)
    ensures Reduce(s, Action(UpdateQuizScore, payload)).None? <==> |s.quizzes| > 0
    ensures |s.quizzes| == 0 ==> Reduce(s, Action(UpdateQuizScore, payload)) == Some(s)
  {
    if |s.quizzes| == 0 {
      assert ScoreQuizzes(s.quizzes, Prop(payload, "quizId"), Prop(payload, "score")) == [];
    }
  }

  // ---------------------------------------------------------------------------
  // Restoring saved data
  // ---------------------------------------------------------------------------

  /** One action when the saved field is truthy, none otherwise. */
  function RestoreStep(saved: JsValue, field: string, kind: string): seq<Action>
  {
    if Truthy(Prop(saved, field)) then [Action(kind, Prop(saved, field))] else []
  }

  /**
   * What is dispatched at start-up for the parsed saved data (`None` when
   * nothing was saved or it did not parse).  A null or undefined parse
   * result throws at the first field read and dispatches nothing.
   */
  function RestoreActions(saved: Option<JsValue>): (r: seq<Action>)
    ensures saved.None? || Nullish(saved.value) ==> r == []
    ensures |r| <= 4
    ensures forall i :: 0 <= i < |r| ==>
      r[i].kind in {AddDocument, AddSummary, AddQuiz, AddToHistory} && Truthy(r[i].payload)
  {
    if saved.None? || Nullish(saved.value) then []
    else
      RestoreStep(saved.value, "documents", AddDocument) +
      RestoreStep(saved.value, "summaries", AddSummary) +
      RestoreStep(saved.value, "quizzes", AddQuiz) +
      RestoreStep(saved.value, "history", AddToHistory)
  }

  /**
   * Dispatches the actions in order; a throwing action stops the sequence.
   * Only a score update can throw.
   */
  function Run(s: AppState, actions: seq<Action>): (r: Option<AppState>)
    ensures |actions| == 0 ==> r == Some(s)
    ensures (forall i :: 0 <= i < |actions| ==> actions[i].kind != UpdateQuizScore) ==> r.Some?
    decreases |actions|
  {
    if |actions| == 0 then Some(s)
    else
      match Reduce(s, actions[0])
      case None => None
      case Some(t) => Run(t, actions[1..])
  }

  lemma {:induction false} RunAppend(s: AppState, a: seq<Action>, b: seq<Action>)
    requires Run(s, a).Some?
    ensures Run(s, a + b) == Run(Run(s, a).value, b)
    decreases |a|
  {
    if |a| == 0 {
      assert a + b == b;
    } else {
      assert (a + b)[0] == a[0];
      assert (a + b)[1..] == a[1..] + b;
      RunAppend(Reduce(s, a[0]).value, a[1..], b);
    }
  }

  lemma RunStep(s: AppState, saved: JsValue, field: string, kind: string)
    requires kind in {AddDocument, AddSummary, AddQuiz, AddToHistory}
    ensures Run(s, RestoreStep(saved, field, kind)) ==
      if Truthy(Prop(saved, field)) then Reduce(s, Action(kind, Prop(saved, field))) else Some(s)
    ensures Run(s, RestoreStep(saved, field, kind)).Some?
  {
    if Truthy(Prop(saved, field)) {
      assert RestoreStep(saved, field, kind)[1..] == [];
    }
  }

  /**
   * Restoring into the initial state wraps each saved list as a single
   * element: `documents` becomes `[saved.documents]` (and that list is the
   * current document), and likewise for summaries, quizzes and history.
   */
  lemma RestoreWraps(saved: JsValue)
    requires !Nullish(saved)
    ensures Run(Initial, RestoreActions(Some(saved))).Some?
    ensures var r := Run(Initial, RestoreActions(Some(saved))).value;
      (r.documents == if Truthy(Prop(saved, "documents")) then [Prop(saved, "documents")] else []) &&
      (r.currentDocument == if Truthy(Prop(saved, "documents")) then Prop(saved, "documents") else Null) &&
      (r.summaries == if Truthy(Prop(saved, "summaries")) then [Prop(saved, "summaries")] else []) &&
      (r.quizzes == if Truthy(Prop(saved, "quizzes")) then [Prop(saved, "quizzes")] else []) &&
      (r.history == if Truthy(Prop(saved, "history")) then [Prop(saved, "history")] else [])
  {
    var d := RestoreStep(saved, "documents", AddDocument);
    var m := RestoreStep(saved, "summaries", AddSummary);
    var q := RestoreStep(saved, "quizzes", AddQuiz);
    var h := RestoreStep(saved, "history", AddToHistory);
    assert RestoreActions(Some(saved)) == d + m + q + h;
    RunStep(Initial, saved, "documents", AddDocument);
    var s1 := Run(Initial, d).value;
    RunStep(s1, saved, "summaries", AddSummary);
    var s2 := Run(s1, m).value;
    RunStep(s2, saved, "quizzes", AddQuiz);
    var s3 := Run(s2, q).value;
    RunStep(s3, saved, "history", AddToHistory);
    RunAppend(Initial, d, m);
    RunAppend(Initial, d + m, q);
    RunAppend(Initial, d + m + q, h);
  }

  /** What the app writes to storage whenever one of the lists changes: the four lists, under their names. */
  function SavedData(s: AppState): JsValue
  {
    Obj(map["documents" := Arr(s.documents), "summaries" := Arr(s.summaries),
      "quizzes" := Arr(s.quizzes), "history" := Arr(s.history)])
  }

  /**
   * As written, saving a state that holds one document and restoring it
   * yields a state whose one document is the whole saved list.
   */
  lemma SaveRestoreNests(d: JsValue)
    ensures var s := Initial.(documents := [d], currentDocument := d);
      var r := Run(Initial, RestoreActions(Some(SavedData(s))));
      r.Some? && r.value.documents == [Arr([d])] && r.value.documents != s.documents
  {
    var s := Initial.(documents := [d], currentDocument := d);
    RestoreWraps(SavedData(s));
    assert d in Arr([d]).items;
  }

  /** The saved list under `field`, or none when the saved value is not a list. */
  function SavedList(saved: JsValue, field: string): seq<JsValue>
  {
    if Prop(saved, field).Arr? then Prop(saved, field).items else []
  }

  /**
   * Restoring as evidently intended: each saved list becomes the state's
   * list, in the order it was saved; nothing else changes.
   */
  function Restore(saved: Option<JsValue>): (r: AppState)
    ensures saved.None? || Nullish(saved.value) ==> r == Initial
    ensures AgreeOutside(r, Initial, {"documents", "summaries", "quizzes", "history"})
    ensures saved.Some? && Prop(saved.value, "documents").Arr? ==> r.documents == Prop(saved.value, "documents").items
    ensures saved.Some? && Prop(saved.value, "summaries").Arr? ==> r.summaries == Prop(saved.value, "summaries").items
    ensures saved.Some? && Prop(saved.value, "quizzes").Arr? ==> r.quizzes == Prop(saved.value, "quizzes").items
    ensures saved.Some? && Prop(saved.value, "history").Arr? ==> r.history == Prop(saved.value, "history").items
  {
    if saved.None? || Nullish(saved.value) then Initial
    else
      var v := saved.value;
      Initial.(documents := SavedList(v, "documents"), summaries := SavedList(v, "summaries"),
        quizzes := SavedList(v, "quizzes"), history := SavedList(v, "history"))
  }

  /** With the corrected restore, what was saved comes back: every list as it was, in order. */
  lemma SaveRestoreRoundTrip(s: AppState)
    ensures var r := Restore(Some(SavedData(s)));
      r.documents == s.documents && r.summaries == s.summaries && r.quizzes == s.quizzes && r.history == s.history
  {
  }

  /** Nothing saved, unparsable data or a null parse result restores nothing. */
  lemma NothingRestored(saved: Option<JsValue>)
    requires saved.None? || Nullish(saved.value)
    ensures Run(Initial, RestoreActions(saved)) == Some(Initial)
  {
  }
}
