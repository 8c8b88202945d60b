/**
 * The closed registry of action kinds (the `ActionTypes` enum) and the four
 * capability groups that say which fields an action of a kind carries.
 */
module ActionTypes {

  /** One tag per primitive; `NoOp` is the source's `NONE`. */
  datatype ActionType =
    | NoOp
    | MoveCoords
    | ClickCoords
    | DblclickCoords
    | MousedownCoords
    | MouseupCoords
    | ClickElement
    | ScrollUp
    | ScrollDown
    | PressKey
    | TypeText
    | TypeField
    | FocusElementAndTypeText
    | FocusElementAndTypeField

  /** COORDS_ACTIONS: mouse actions positioned by screen coordinates. */
  predicate IsCoordsAction(k: ActionType) {
    k.MoveCoords? || k.ClickCoords? || k.DblclickCoords? || k.MousedownCoords? || k.MouseupCoords?
  }

  /** ELEMENT_ACTIONS: actions that name a DOM element by reference. */
  predicate IsElementAction(k: ActionType) {
    k.ClickElement? || k.FocusElementAndTypeText? || k.FocusElementAndTypeField?
  }

  /** TEXT_ACTIONS: actions that type free text. */
  predicate IsTextAction(k: ActionType) {
    k.TypeText? || k.FocusElementAndTypeText?
  }

  /** FIELD_ACTIONS: actions that type the value of a task field. */
  predicate IsFieldAction(k: ActionType) {
    k.TypeField? || k.FocusElementAndTypeField?
  }

  /** The four capability groups, so that a group can be passed as a value. */
  datatype Group = CoordsGroup | ElementGroup | TextGroup | FieldGroup

  predicate InGroup(k: ActionType, g: Group) {
    match g
    case CoordsGroup => IsCoordsAction(k)
    case ElementGroup => IsElementAction(k)
    case TextGroup => IsTextAction(k)
    case FieldGroup => IsFieldAction(k)
  }

  /** The coordinate group shares no kind with any other group. */
  lemma CoordsGroupDisjoint(k: ActionType)
    requires IsCoordsAction(k)
    ensures !IsElementAction(k) && !IsTextAction(k) && !IsFieldAction(k)
  {
  }

  /**
   * The only overlaps between groups: focus-and-type-text is both an element
   * and a text kind, focus-and-type-field both an element and a field kind,
   * and no kind types both text and a field.
   */
  lemma GroupOverlaps(k: ActionType)
    ensures IsElementAction(k) && IsTextAction(k) <==> k == FocusElementAndTypeText
    ensures IsElementAction(k) && IsFieldAction(k) <==> k == FocusElementAndTypeField
    ensures !(IsTextAction(k) && IsFieldAction(k))
  {
  }

  /**
   * The kinds outside every group; of these, only PRESS_KEY adds a schema
   * field (`key`).
   */
  lemma UngroupedKinds(k: ActionType)
    ensures (forall g :: !InGroup(k, g)) <==> k in {NoOp, ScrollUp, ScrollDown, PressKey}
  {
    if forall g :: !InGroup(k, g) {
      assert !InGroup(k, CoordsGroup) && !InGroup(k, ElementGroup);
      assert !InGroup(k, TextGroup) && !InGroup(k, FieldGroup);
    }
  }
}
