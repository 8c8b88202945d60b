# MiniWoB action space, modelled in Dafny

This project models the action encoding of the MiniWoB browser-automation
environment (`miniwob/action.py`): the closed set of action kinds and their
capability groups, the `ActionSpaceConfig` that turns a list of configured
kinds into the schema of a serialized action, the conversion of (possibly
binned) coordinates into screen pixels, the `all_supported` preset, and
`execute_action`, which resolves one action to at most one call into the
browser driver.

Everything in the source is a pure expression or a branch (there are no
loops), so the model is written as datatypes, functions and lemmas:

- `wrappers.dfy` (`Wrappers`): `Option` and `Result`.
- `constants.dfy` (`Constants`): `MAX_REF`, `MAX_FIELDS`, `TYPING_MAX_LENGTH`,
  `DEFAULT_ALLOWED_KEYS` and `ASCII_CHARSET`. `miniwob/constants.py` is not
  part of this model, so these are declared with their types only (the three
  counts as positive integers); every proof holds for any value.
- `action_types.dfy` (`ActionTypes`): the `ActionTypes` enum as a datatype
  (`NONE` is `NoOp`), and `COORDS_ACTIONS`, `ELEMENT_ACTIONS`, `TEXT_ACTIONS`,
  `FIELD_ACTIONS` as predicates.
- `errors.dfy` (`Errors`): one constructor per exception the code raises.
- `action_space.dfy` (`ActionSpace`): the configuration record, the action
  record, the schema (`spaces.Dict` as a map from field to descriptor),
  `get_action_space`, `compute_raw_coords` and `get_preset`.
- `dispatch.dfy` (`Dispatch`): `_ACTION_TYPE_TO_SELENIUM_ACTION_FN` as a
  partial map and `execute_action` as a function returning the driver call.

Modelling choices:

- A screen dimension counts as unset when it is `None` or zero, because the
  code tests its truthiness. A negative size counts as set. `coord_bins` is
  tested for truthiness too, but a tuple is truthy whenever it is present, so
  `(0, 0)` counts as "binned". A zero bin count then raises
  `ZeroDivisionError` in `compute_raw_coords` (`ZeroDivision`).
- Python's `set.intersection` over the configured sequence is the recursive
  function `Intersection`. Its contract relates it to membership in the
  sequence.
- `action_types[i]` is Python indexing. A negative index counts from the end,
  and an index outside `-len .. len-1` raises `IndexError`
  (`IndexOutOfRange`). This wrap-around is modelled explicitly and not excluded
  by a precondition.
- A missing key in the action dict is `MissingActionField`. A kind missing from
  the handler table is `NoHandler` (the `KeyError` of line 173).
- Coordinates are reals. `int(...)` on a binned coordinate is modelled as
  truncation toward zero (`Trunc`), and `float(...)` is the identity.
- The driver is not modelled. `execute_action` returns `Option<DriverCall>`:
  `None` means no call, and `Some(call)` names the primitive and its arguments.

Behaviour of the code that its names and docstrings do not suggest:

- Only `SCROLL_UP`, `SCROLL_DOWN`, `PRESS_KEY`, `TYPE_FIELD` and
  `FOCUS_ELEMENT_AND_TYPE_FIELD` fail at dispatch whatever the action holds,
  and they fail with the table's `KeyError`, not with the "unsupported action type" error. All five
  coordinate kinds, double-click and mouse-down/up included, are dispatched.
  The final `ValueError` branch cannot be reached (`UnsupportedBranchUnreachable`).
- The schema contains `coords` iff SOME configured kind is a coordinate kind.
  The same holds for the other groups. A configured kind forces its groups'
  fields in, but a field can also come from another kind.
- A screen size of zero counts as missing, just as `None` does.
- `coord_bins` is not checked to be positive. `compute_raw_coords` raises on
  a zero bin count. For such a count the model's `GetActionSpace` returns
  `MultiDiscrete((0, _))`, where the program would fail inside gymnasium's
  `MultiDiscrete` constructor (see "Left out").

## Model

| member | source | states |
|---|---|---|
| `ActionTypes.IsCoordsAction` | miniwob/action.py:46-52 | COORDS_ACTIONS: move, click, double-click, mouse-down and mouse-up at coordinates |
| `ActionTypes.IsElementAction` | miniwob/action.py:53-57 | ELEMENT_ACTIONS: click-element and the two focus-element kinds |
| `ActionTypes.IsTextAction` | miniwob/action.py:58-61 | TEXT_ACTIONS: type-text and focus-element-and-type-text |
| `ActionTypes.IsFieldAction` | miniwob/action.py:62-65 | FIELD_ACTIONS: type-field and focus-element-and-type-field |
| `ActionTypes.CoordsGroupDisjoint` | miniwob/action.py:46-65 | a coordinate kind is not an element, text or field kind |
| `ActionTypes.GroupOverlaps` | miniwob/action.py:53-65 | element∩text is exactly FOCUS_ELEMENT_AND_TYPE_TEXT, element∩field exactly FOCUS_ELEMENT_AND_TYPE_FIELD, text∩field is empty |
| `ActionTypes.UngroupedKinds` | miniwob/action.py:22-65 | the kinds in no group are exactly NONE, SCROLL_UP, SCROLL_DOWN and PRESS_KEY |
| `ActionSpace.IsSpecified` | miniwob/action.py:116 | a screen dimension is truthy: present and not zero |
| `ActionSpace.HasScreenSize` | miniwob/action.py:139 | both screen dimensions are truthy |
| `ActionSpace.Intersection` | miniwob/action.py:115-131 | `GROUP.intersection(action_types)` holds exactly the group's kinds that occur in the sequence |
| `ActionSpace.IntersectionNonEmpty` | miniwob/action.py:115-131 | the intersection is truthy iff some configured kind is in the group |
| `ActionSpace.GetActionSpace` | miniwob/action.py:111-133 | fails (missing screen size) iff a coordinate kind is configured and width or height is None or zero; on success `action_type` is `Discrete(len(action_types))`, and `coords`, `ref`, `text`, `field` are present iff the matching group is used, `key` iff PRESS_KEY is configured |
| `ActionSpace.CoordsSpace` | miniwob/action.py:118-124 | the `coords` descriptor: `MultiDiscrete(coord_bins)` with bins, else the box (0,0)–(width,height) |
| `ActionSpace.FieldSpace` | miniwob/action.py:113-132 | the descriptor stored under each schema key, or none when the key is left out |
| `ActionSpace.SchemaDescriptors` | miniwob/action.py:118-132 | `coords` is `MultiDiscrete(coord_bins)` when bins are set and the box (0,0)–(width,height) otherwise; `ref` is `Discrete(MAX_REF)`, `key` is `Discrete(len(allowed_keys))`, `text` is `Text(text_max_len, text_charset)`, `field` is `Discrete(MAX_FIELDS)` |
| `ActionSpace.SchemaWithoutCoordsNeverFails` | miniwob/action.py:115-117 | with no coordinate kind configured the schema is always built, and has no `coords` |
| `ActionSpace.SchemaHasFieldsOfKind` | miniwob/action.py:113-132 | a configured kind makes the fields of its groups appear, wherever it stands in the sequence |
| `ActionSpace.SchemaDependsOnlyOnKindSet` | miniwob/action.py:113-133 | two configurations with the same set of kinds (any order, any duplicates) both fail or both succeed, with the same fields and the same descriptors, except for the size of `action_type` |
| `ActionSpace.Trunc` | miniwob/action.py:141-144 | `int(x)` truncates toward zero: it lies between 0 and x, less than 1 away from x |
| `ActionSpace.TruncOfWhole` | miniwob/action.py:141-144 | `int(x)` is the identity on whole bin indices |
| `ActionSpace.BinCentre` | miniwob/action.py:141-146 | `(0.5 + i) * (extent / bins)` is equally far from the bin's two edges `i*extent/bins` and `(i+1)*extent/bins`: the middle of the partition |
| `ActionSpace.BinCentreInsideBin` | miniwob/action.py:137-146 | on a positive extent, `(0.5 + i) * (extent / bins)` for `0 <= i < bins` lies strictly inside bin i, equally far from both edges, so strictly inside (0, extent) |
| `ActionSpace.ComputeRawCoords` | miniwob/action.py:135-150 | without bins, the coordinates are returned unchanged and the screen size is never checked; with bins, the result is the centre `BinCentre` of bin `int(x)` of the width and bin `int(y)` of the height; it fails with missing screen size iff width or height is None or zero, and with a division by zero iff a bin count is 0; a missing `coords` is a KeyError, and present coords with non-zero bins and a screen size always convert |
| `ActionSpace.BinnedCoordsInsideBin` | miniwob/action.py:137-146 | in-range whole bin indices on a positive screen land strictly inside the selected bin on each axis, equally far from its two edges (its middle), and strictly inside the screen |
| `ActionSpace.SchemaImpliesCoordsComputable` | miniwob/action.py:115-146 | when the schema with coordinates was built, converting coordinates cannot fail for a missing screen size |
| `ActionSpace.ExampleBinnedCoords` | miniwob/action.py:141-146 | 4x2 bins on 800x600: bin (0,0) is (100,150) and bin (3,1) is (700,450) |
| `ActionSpace.GetPreset` | miniwob/action.py:95-109 | succeeds iff the name is "all_supported"; any other name fails with an unknown-preset error naming it |
| `ActionSpace.DefaultPresetContents` | miniwob/action.py:96-107 | the default preset is exactly [NONE, CLICK_COORDS, CLICK_ELEMENT, TYPE_TEXT, FOCUS_ELEMENT_AND_TYPE_TEXT] with every other field at its default, and its schema fails until the screen size is set |
| `ActionSpace.DefaultPresetSchema` | miniwob/action.py:96-133 | with a non-zero screen size, the preset's schema is `Discrete(5)` plus a `coords` box, `ref` and `text`, and has no `key` or `field` |
| `Dispatch.HandlerTableShape` | miniwob/action.py:153-163 | the table has entries exactly for NONE, the coordinate kinds, CLICK_ELEMENT, TYPE_TEXT and FOCUS_ELEMENT_AND_TYPE_TEXT; only NONE maps to no function; each coordinate kind maps to its own primitive |
| `Dispatch.PyIndex` | miniwob/action.py:172 | Python indexing succeeds iff `-len <= i < len`, and yields an element of the sequence |
| `Dispatch.PyIndexWrapsAround` | miniwob/action.py:172 | index `i - len` names the same element as index `i` |
| `Dispatch.ExecuteAction` | miniwob/action.py:166-188 | fails with IndexError iff the kind index is out of Python range |
| `Dispatch.ExecuteNoOp` | miniwob/action.py:174-175 | NONE makes no driver call and does not fail |
| `Dispatch.ExecuteCoordsAction` | miniwob/action.py:176-178 | a coordinate kind makes one call, to its own primitive, at the position `compute_raw_coords` returns; that function's errors pass through |
| `Dispatch.ExecuteElementOrTextAction` | miniwob/action.py:179-186 | CLICK_ELEMENT calls click with `ref`, TYPE_TEXT calls type with `text`, FOCUS_ELEMENT_AND_TYPE_TEXT calls focus-and-type with `(ref, text)`; a missing field is a KeyError, `ref` read before `text` |
| `Dispatch.ExecuteUnwiredKind` | miniwob/action.py:172-173 | SCROLL_UP, SCROLL_DOWN, PRESS_KEY, TYPE_FIELD and FOCUS_ELEMENT_AND_TYPE_FIELD fail at the table lookup, whatever the action holds |
| `Dispatch.UnsupportedBranchUnreachable` | miniwob/action.py:173-188 | the final "Unsupported action type" error is never raised |
| `Dispatch.DispatchedCallIdentifiesKind` | miniwob/action.py:172-186 | a successful dispatch makes no call only for NONE, and any call it makes serves exactly the selected kind |
| `Dispatch.ExecuteNegativeIndex` | miniwob/action.py:172 | a negative kind index behaves as its counterpart `index + len` |
| `Dispatch.ExampleClickCoordsAndNoOp` | miniwob/action.py:172-178 | [NONE, CLICK_COORDS] on 300x200 without bins: index 1 at (10,20) clicks at (10.0, 20.0), and index 0 makes no call |
| `Dispatch.ExampleFocusAndType` | miniwob/action.py:183-186 | focus-and-type with ref 5 and text "hi" makes the one call (5, "hi") |
| `Dispatch.ExampleScrollUpHasNoHandler` | miniwob/action.py:173 | a configured SCROLL_UP fails at the handler lookup |

## Left out

- The Selenium driver and `selenium_actions.*`: a call is returned as a `DriverCall` value and not performed. Failures inside the driver are not modelled.
- gymnasium `spaces` internals: descriptors are plain values. The float32 rounding of the box bounds is not modelled. gymnasium's own rejection of non-positive sizes (`Discrete(0)` for an empty `action_types`, `MultiDiscrete` with a zero bin count) is not modelled either.
- The charset and length checks that `spaces.Text` performs, and the concrete values of the `miniwob.constants` constants. `text_charset` (a string or a set of strings in the source) is a set of characters.
- `int(action["ref"])`: `ref` is taken to be an integer already, so its truncation is not modelled.
- `action["action_type"]` is taken to be present and whole. The schema always has it, so a missing or fractional kind index is not modelled.
- The environment's later overwrite of `screen_width` and `screen_height`. The configuration is an immutable value; a caller that learns the screen size builds the updated value.
- `text` is any string: the model does not check what the driver would accept.
