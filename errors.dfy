/** The exceptions the modelled code can raise, one constructor per cause. */
module Errors {
  import opened ActionTypes

  datatype Error =
    /** ValueError: coordinates are used but the screen size is unset or zero. */
    | ScreenSizeMissing
    /** ValueError: `get_preset` was given a name it does not know. */
    | UnknownPreset(name: string)
    /** ZeroDivisionError: a bin count of zero divides the screen extent. */
    | ZeroDivision
    /** IndexError: the action's kind index is outside `action_types`. */
    | IndexOutOfRange(index: int)
    /** KeyError: the action record lacks a field the branch reads. */
    | MissingActionField(field: string)
    /** KeyError: the kind has no entry in the handler table. */
    | NoHandler(kind: ActionType)
    /** ValueError: the kind has a handler entry but no dispatch branch. */
    | UnsupportedActionType(kind: ActionType)
}
