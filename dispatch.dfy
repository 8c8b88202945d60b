/**
 * `execute_action`: resolve the action's kind through `action_types`, look the
 * kind up in the handler table and make the one matching driver call. The
 * driver itself is outside the model: a call is returned as a value.
 */
module Dispatch {
  import opened Wrappers
  import opened ActionTypes
  import opened Errors
  import opened ActionSpace

  /** The `selenium_actions` primitives that the handler table refers to. */
  datatype SeleniumFn =
    | MoveCoordsFn
    | ClickCoordsFn
    | DblclickCoordsFn
    | MousedownCoordsFn
    | MouseupCoordsFn
    | ClickElementFn
    | TypeTextFn
    | FocusElementAndTypeTextFn

  /** One call into the driver: which primitive, with which arguments. */
  datatype DriverCall =
    | CoordsCall(fn: SeleniumFn, left: real, top: real)
    | ClickElementCall(ref: int)
    | TypeTextCall(text: string)
    | FocusElementAndTypeTextCall(ref: int, text: string)

  /**
   * `_ACTION_TYPE_TO_SELENIUM_ACTION_FN`: a partial table. NONE maps to no
   * function; scrolling, key presses and field typing have no entry at all.
   */
  const SeleniumActionFns: map<ActionType, Option<SeleniumFn>> := map[
    NoOp := None,
    MoveCoords := Some(MoveCoordsFn),
    ClickCoords := Some(ClickCoordsFn),
    DblclickCoords := Some(DblclickCoordsFn),
    MousedownCoords := Some(MousedownCoordsFn),
    MouseupCoords := Some(MouseupCoordsFn),
    ClickElement := Some(ClickElementFn),
    TypeText := Some(TypeTextFn),
    FocusElementAndTypeText := Some(FocusElementAndTypeTextFn)]

  /** The primitive a coordinate kind is meant to drive. */
  function CoordsPrimitive(k: ActionType): (fn: SeleniumFn)
    requires IsCoordsAction(k)
  {
    match k
    case MoveCoords => MoveCoordsFn
    case ClickCoords => ClickCoordsFn
    case DblclickCoords => DblclickCoordsFn
    case MousedownCoords => MousedownCoordsFn
    case MouseupCoords => MouseupCoordsFn
  }

  /** The kind each primitive serves. */
  function ServedKind(fn: SeleniumFn): (k: ActionType) {
    match fn
    case MoveCoordsFn => MoveCoords
    case ClickCoordsFn => ClickCoords
    case DblclickCoordsFn => DblclickCoords
    case MousedownCoordsFn => MousedownCoords
    case MouseupCoordsFn => MouseupCoords
    case ClickElementFn => ClickElement
    case TypeTextFn => TypeText
    case FocusElementAndTypeTextFn => FocusElementAndTypeText
  }

  /** The kind a driver call serves, read back from the call. */
  function CalledKind(call: DriverCall): (k: ActionType) {
    match call
    case CoordsCall(fn, _, _) => ServedKind(fn)
    case ClickElementCall(_) => ClickElement
    case TypeTextCall(_) => TypeText
    case FocusElementAndTypeTextCall(_, _) => FocusElementAndTypeText
  }

  /** The kinds that have an entry in the handler table. */
  predicate HasHandler(k: ActionType) {
    k == NoOp || IsCoordsAction(k) || k == ClickElement || k == TypeText || k == FocusElementAndTypeText
  }

  /**
   * The table has an entry exactly for the kinds with a dispatch branch; only
   * NONE maps to no function, and each coordinate kind maps to its own primitive.
   */
  lemma HandlerTableShape(k: ActionType)
    ensures k in SeleniumActionFns <==> HasHandler(k)
    ensures k in SeleniumActionFns ==> (SeleniumActionFns[k].None? <==> k == NoOp)
    ensures IsCoordsAction(k) ==> SeleniumActionFns[k] == Some(CoordsPrimitive(k))
  {
  }

  /**
   * Python's `seq[i]`: a negative index counts from the end, and an index
   * outside `-|s| .. |s|-1` raises (here: `None`).
   */
  function PyIndex<T>(s: seq<T>, i: int): (r: Option<T>)
    ensures r.Some? <==> -|s| <= i < |s|
    ensures r.Some? ==> r.value in s
  {
    if 0 <= i < |s| then Some(s[i])
    else if -|s| <= i < 0 then Some(s[|s| + i])
    else None
  }

  /** Index `i - |s|` names the same element as index `i`. */
  lemma PyIndexWrapsAround<T>(s: seq<T>, i: int)
    requires 0 <= i < |s|
    ensures PyIndex(s, i) == PyIndex(s, i - |s|) == Some(s[i])
  {
  }

  /**
   * `execute_action`: at most one driver call (`None` for the no-op). The
   * handler lookup comes before any branch, so a kind without a table entry
   * fails there with `NoHandler`.
   */
  function ExecuteAction(a: Action, c: ActionSpaceConfig): (r: Result<Option<DriverCall>, Error>)
    ensures r == Failure(IndexOutOfRange(a.actionType)) <==> PyIndex(c.actionTypes, a.actionType).None?
  {
    match PyIndex(c.actionTypes, a.actionType)
    case None => Failure(IndexOutOfRange(a.actionType))
    case Some(k) =>
      if k !in SeleniumActionFns then Failure(NoHandler(k))
      else
        var fn := SeleniumActionFns[k];
        if k == NoOp then Success(None)
        else if IsCoordsAction(k) then
          match ComputeRawCoords(c, a)
          case Failure(e) => Failure(e)
          case Success(coords) => Success(Some(CoordsCall(fn.value, coords.0, coords.1)))
        else if k == ClickElement then
          if a.ref.None? then Failure(MissingActionField("ref"))
          else Success(Some(ClickElementCall(a.ref.value)))
        else if k == TypeText then
          if a.text.None? then Failure(MissingActionField("text"))
          else Success(Some(TypeTextCall(a.text.value)))
        else if k == FocusElementAndTypeText then
          if a.ref.None? then Failure(MissingActionField("ref"))
          else if a.text.None? then Failure(MissingActionField("text"))
          else Success(Some(FocusElementAndTypeTextCall(a.ref.value, a.text.value)))
        else Failure(UnsupportedActionType(k))
  }

  /** The no-op kind never calls the driver and never fails. */
  lemma ExecuteNoOp(a: Action, c: ActionSpaceConfig)
    requires PyIndex(c.actionTypes, a.actionType) == Some(NoOp)
    ensures ExecuteAction(a, c) == Success(None)
  {
  }

  /**
   * A coordinate kind makes exactly one call, to its own primitive, at the
   * pixel position `compute_raw_coords` gives; that conversion's errors pass through.
   */
  lemma ExecuteCoordsAction(a: Action, c: ActionSpaceConfig, k: ActionType)
    requires PyIndex(c.actionTypes, a.actionType) == Some(k) && IsCoordsAction(k)
    ensures ComputeRawCoords(c, a).Failure? ==> ExecuteAction(a, c) == Failure(ComputeRawCoords(c, a).error)
    ensures ComputeRawCoords(c, a).Success? ==>
      var (left, top) := ComputeRawCoords(c, a).value;
      ExecuteAction(a, c) == Success(Some(CoordsCall(CoordsPrimitive(k), left, top)))
  {
  }

  /**
   * Element clicks pass `ref`, text typing passes `text`, and focus-and-type
   * passes both; a missing field is a KeyError (`ref` is read before `text`).
   */
  lemma ExecuteElementOrTextAction(a: Action, c: ActionSpaceConfig, k: ActionType)
    requires PyIndex(c.actionTypes, a.actionType) == Some(k)
    ensures k == ClickElement ==>
      ExecuteAction(a, c) ==
        (if a.ref.Some? then Success(Some(ClickElementCall(a.ref.value))) else Failure(MissingActionField("ref")))
    ensures k == TypeText ==>
      ExecuteAction(a, c) ==
        (if a.text.Some? then Success(Some(TypeTextCall(a.text.value))) else Failure(MissingActionField("text")))
    ensures k == FocusElementAndTypeText ==>
      ExecuteAction(a, c) ==
        (if a.ref.None? then Failure(MissingActionField("ref"))
         else if a.text.None? then Failure(MissingActionField("text"))
         else Success(Some(FocusElementAndTypeTextCall(a.ref.value, a.text.value))))
  {
  }

  /**
   * Scrolling, key presses and field typing are accepted by the schema but fail
   * at the handler lookup, whatever the action carries.
   */
  lemma ExecuteUnwiredKind(a: Action, c: ActionSpaceConfig, k: ActionType)
    requires PyIndex(c.actionTypes, a.actionType) == Some(k)
    requires k in {ScrollUp, ScrollDown, PressKey, TypeField, FocusElementAndTypeField}
    ensures ExecuteAction(a, c) == Failure(NoHandler(k))
  {
  }

  /** The final `Unsupported action type` branch can never be taken. */
  lemma UnsupportedBranchUnreachable(a: Action, c: ActionSpaceConfig)
    ensures !(ExecuteAction(a, c).Failure? && ExecuteAction(a, c).error.UnsupportedActionType?)
  {
  }

  /**
   * The call made, read back, names the kind the action selected, and no call
   * means the no-op: dispatch never routes one kind to another kind's primitive.
   */
  lemma DispatchedCallIdentifiesKind(a: Action, c: ActionSpaceConfig)
    requires ExecuteAction(a, c).Success?
    ensures PyIndex(c.actionTypes, a.actionType).Some?
    ensures var k := PyIndex(c.actionTypes, a.actionType).value;
      match ExecuteAction(a, c).value
      case None => k == NoOp
      case Some(call) => CalledKind(call) == k
  {
  }

  /** A negative kind index selects the same kind as its positive counterpart. */
  lemma ExecuteNegativeIndex(a: Action, c: ActionSpaceConfig)
    requires 0 <= a.actionType < |c.actionTypes|
    ensures ExecuteAction(a.(actionType := a.actionType - |c.actionTypes|), c) == ExecuteAction(a, c)
  {
  }

  /**
   * Kinds [NONE, CLICK_COORDS] on a 300x200 screen without bins: index 1 at
   * (10, 20) clicks there, index 0 calls nothing.
   */
  lemma ExampleClickCoordsAndNoOp()
    ensures var c := ActionSpaceConfig([NoOp, ClickCoords], Some(300.0), Some(200.0));
      && ExecuteAction(Action(1, coords := Some((10.0, 20.0))), c) == Success(Some(CoordsCall(ClickCoordsFn, 10.0, 20.0)))
      && ExecuteAction(Action(0), c) == Success(None)
  {
  }

  /** Focus-and-type with ref 5 and text "hi" makes one call with both. */
  lemma ExampleFocusAndType()
    ensures var c := ActionSpaceConfig([NoOp, FocusElementAndTypeText]);
      ExecuteAction(Action(1, ref := Some(5), text := Some("hi")), c) ==
        Success(Some(FocusElementAndTypeTextCall(5, "hi")))
  {
  }

  /** A configured SCROLL_UP fails at the handler lookup. */
  lemma ExampleScrollUpHasNoHandler()
    ensures ExecuteAction(Action(0), ActionSpaceConfig([ScrollUp])) == Failure(NoHandler(ScrollUp))
  {
  }
}
