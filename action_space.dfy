/**
 * `ActionSpaceConfig`: the configured action kinds and limits, the schema of
 * serialized actions derived from them (`get_action_space`), the conversion of
 * an action's coordinates into pixels (`compute_raw_coords`) and the named
 * preset factory (`get_preset`).
 */
module ActionSpace {
  import opened Wrappers
  import opened Constants
  import opened ActionTypes
  import opened Errors

  /**
   * The configuration record. The screen size stays `None` until the
   * environment fills it in; `coordBins` is the optional (x, y) bin count.
   */
  datatype ActionSpaceConfig = ActionSpaceConfig(
    actionTypes: seq<ActionType>,
    screenWidth: Option<real> := None,
    screenHeight: Option<real> := None,
    coordBins: Option<(int, int)> := None,
    allowedKeys: seq<string> := DefaultAllowedKeys,
    textMaxLen: int := TypingMaxLength,
    textCharset: set<char> := AsciiCharset)

  /** The action the environment receives: a record whose fields may be absent. */
  datatype Action = Action(
    actionType: int,
    coords: Option<(real, real)> := None,
    ref: Option<int> := None,
    key: Option<int> := None,
    text: Option<string> := None,
    field: Option<int> := None)

  /** The descriptor of one field of the schema (a gymnasium space). */
  datatype Space =
    | Discrete(n: int)
    | Box(low: (real, real), high: (real, real))
    | MultiDiscrete(nvec: (int, int))
    | Text(maxLength: int, charset: set<char>)

  /**
   * The keys of the schema dict: "action_type", "coords", "ref", "key", "text"
   * and "field", in that order.
   */
  datatype SchemaField = ActionTypeField | CoordsField | RefField | KeyField | TextField | FieldIndexField

  /** The schema of a serialized action (a gymnasium `Dict` space). */
  type Schema = map<SchemaField, Space>

  /** Python truthiness of an optional screen dimension: neither `None` nor zero. */
  predicate IsSpecified(d: Option<real>) {
    d.Some? && d.value != 0.0
  }

  predicate HasScreenSize(c: ActionSpaceConfig) {
    IsSpecified(c.screenWidth) && IsSpecified(c.screenHeight)
  }

  /** Some configured kind belongs to group `g`. */
  predicate UsesGroup(types: seq<ActionType>, g: Group) {
    exists i :: 0 <= i < |types| && InGroup(types[i], g)
  }

  /**
   * `GROUP.intersection(action_types)`: the kinds of `g` that occur in `types`,
   * collected while walking the sequence as Python's set intersection does.
   */
  function Intersection(g: Group, types: seq<ActionType>): (r: set<ActionType>)
    ensures forall k :: k in r <==> InGroup(k, g) && k in types
  {
    if types == [] then {}
    else (if InGroup(types[0], g) then {types[0]} else {}) + Intersection(g, types[1..])
  }

  lemma IntersectionNonEmpty(g: Group, types: seq<ActionType>)
    ensures Intersection(g, types) != {} <==> UsesGroup(types, g)
  {
  }

  /** The `coords` descriptor; only built once the screen size is known. */
  function CoordsSpace(c: ActionSpaceConfig): (r: Space)
    requires HasScreenSize(c)
  {
    if c.coordBins.Some? then MultiDiscrete(c.coordBins.value)
    else Box((0.0, 0.0), (c.screenWidth.value, c.screenHeight.value))
  }

  /**
   * The descriptor `get_action_space` stores under `f`, or `None` when it
   * leaves `f` out. Coordinates are only described once the screen size is known.
   */
  function FieldSpace(c: ActionSpaceConfig, f: SchemaField): (r: Option<Space>)
    requires Intersection(CoordsGroup, c.actionTypes) != {} ==> HasScreenSize(c)
  {
    match f
    case ActionTypeField => Some(Discrete(|c.actionTypes|))
    case CoordsField =>
      if Intersection(CoordsGroup, c.actionTypes) != {} then Some(CoordsSpace(c)) else None
    case RefField =>
      if Intersection(ElementGroup, c.actionTypes) != {} then Some(Discrete(MaxRef)) else None
    case KeyField =>
      if PressKey in c.actionTypes then Some(Discrete(|c.allowedKeys|)) else None
    case TextField =>
      if Intersection(TextGroup, c.actionTypes) != {} then Some(Text(c.textMaxLen, c.textCharset)) else None
    case FieldIndexField =>
      if Intersection(FieldGroup, c.actionTypes) != {} then Some(Discrete(MaxFields)) else None
  }

  const AllSchemaFields: set<SchemaField> :=
    {ActionTypeField, CoordsField, RefField, KeyField, TextField, FieldIndexField}

  /**
   * `get_action_space`: always an `action_type` selector over the configured
   * kinds, plus one field per capability group that the kinds touch, and a
   * `key` selector when PRESS_KEY is configured. Fails when coordinates are
   * needed and the screen size is unset or zero, whether or not bins are set.
   */
  function GetActionSpace(c: ActionSpaceConfig): (r: Result<Schema, Error>)
    ensures r.Failure? <==> UsesGroup(c.actionTypes, CoordsGroup) && !HasScreenSize(c)
    ensures r.Failure? ==> r.error == ScreenSizeMissing
    ensures r.Success? ==> ActionTypeField in r.value && r.value[ActionTypeField] == Discrete(|c.actionTypes|)
    ensures r.Success? ==> (CoordsField in r.value <==> UsesGroup(c.actionTypes, CoordsGroup))
    ensures r.Success? ==> (RefField in r.value <==> UsesGroup(c.actionTypes, ElementGroup))
    ensures r.Success? ==> (KeyField in r.value <==> PressKey in c.actionTypes)
    ensures r.Success? ==> (TextField in r.value <==> UsesGroup(c.actionTypes, TextGroup))
    ensures r.Success? ==> (FieldIndexField in r.value <==> UsesGroup(c.actionTypes, FieldGroup))
  {
    IntersectionNonEmpty(CoordsGroup, c.actionTypes);
    IntersectionNonEmpty(ElementGroup, c.actionTypes);
    IntersectionNonEmpty(TextGroup, c.actionTypes);
    IntersectionNonEmpty(FieldGroup, c.actionTypes);
    if Intersection(CoordsGroup, c.actionTypes) != {} && !HasScreenSize(c) then Failure(ScreenSizeMissing)
    else Success(map f | f in AllSchemaFields && FieldSpace(c, f).Some? :: FieldSpace(c, f).value)
  }

  /** The bounds of every descriptor other than `action_type`. */
  lemma SchemaDescriptors(c: ActionSpaceConfig)
    requires GetActionSpace(c).Success?
    ensures var s := GetActionSpace(c).value;
      && (CoordsField in s ==> s[CoordsField] == (if c.coordBins.Some? then MultiDiscrete(c.coordBins.value)
                                            else Box((0.0, 0.0), (c.screenWidth.value, c.screenHeight.value))))
      && (RefField in s ==> s[RefField] == Discrete(MaxRef))
      && (KeyField in s ==> s[KeyField] == Discrete(|c.allowedKeys|))
      && (TextField in s ==> s[TextField] == Text(c.textMaxLen, c.textCharset))
      && (FieldIndexField in s ==> s[FieldIndexField] == Discrete(MaxFields))
  {
  }

  /** Without coordinate kinds the schema can always be built. */
  lemma SchemaWithoutCoordsNeverFails(c: ActionSpaceConfig)
    requires forall k :: k in c.actionTypes ==> !IsCoordsAction(k)
    ensures GetActionSpace(c).Success?
    ensures CoordsField !in GetActionSpace(c).value
  {
  }

  /**
   * A configured kind makes its groups' fields appear, wherever it stands in
   * `action_types`.
   */
  lemma SchemaHasFieldsOfKind(c: ActionSpaceConfig, k: ActionType)
    requires k in c.actionTypes
    requires GetActionSpace(c).Success?
    ensures var s := GetActionSpace(c).value;
      && (IsCoordsAction(k) ==> CoordsField in s)
      && (IsElementAction(k) ==> RefField in s)
      && (k == PressKey ==> KeyField in s)
      && (IsTextAction(k) ==> TextField in s)
      && (IsFieldAction(k) ==> FieldIndexField in s)
  {
  }

  /**
   * Reordering or duplicating the configured kinds changes nothing but the size
   * of the `action_type` selector.
   */
  lemma SchemaDependsOnlyOnKindSet(c1: ActionSpaceConfig, c2: ActionSpaceConfig)
    requires forall k :: k in c1.actionTypes <==> k in c2.actionTypes
    requires c2 == c1.(actionTypes := c2.actionTypes)
    ensures GetActionSpace(c1).Success? <==> GetActionSpace(c2).Success?
    ensures GetActionSpace(c1).Success? ==>
      && (forall f :: f in GetActionSpace(c1).value <==> f in GetActionSpace(c2).value)
      && forall f :: f in GetActionSpace(c1).value && f != ActionTypeField ==>
           GetActionSpace(c1).value[f] == GetActionSpace(c2).value[f]
  {
    var t1, t2 := c1.actionTypes, c2.actionTypes;
    assert Intersection(CoordsGroup, t1) == Intersection(CoordsGroup, t2);
    assert Intersection(ElementGroup, t1) == Intersection(ElementGroup, t2);
    assert Intersection(TextGroup, t1) == Intersection(TextGroup, t2);
    assert Intersection(FieldGroup, t1) == Intersection(FieldGroup, t2);
    if GetActionSpace(c1).Success? {
      forall f | f != ActionTypeField ensures FieldSpace(c1, f) == FieldSpace(c2, f) { }
    }
  }

  /** Python's `int(x)` on a float: truncation toward zero. */
  function Trunc(x: real): (r: int)
    ensures 0.0 <= x ==> 0 <= r && r as real <= x < r as real + 1.0
    ensures x < 0.0 ==> r <= 0 && r as real - 1.0 < x <= r as real
  {
    if x >= 0.0 then x.Floor else -((-x).Floor)
  }

  /** A whole number passes through `int(...)` unchanged. */
  lemma TruncOfWhole(n: int)
    ensures Trunc(n as real) == n
  {
  }

  /** `(0.5 + i) * (extent / bins)`: the pixel at the middle of bin `i`. */
  function BinCentre(i: int, bins: int, extent: real): (r: real)
    requires bins != 0
    ensures r - i as real * extent / bins as real == (i + 1) as real * extent / bins as real - r
  {
    (0.5 + i as real) * (extent / bins as real)
  }

  /**
   * On a positive extent, the centre of an in-range bin lies strictly inside
   * that bin's slice of the screen, at equal distance from both of its edges,
   * and so strictly inside the screen.
   */
  lemma BinCentreInsideBin(i: int, bins: int, extent: real)
    requires 0 <= i < bins && 0.0 < extent
    ensures i as real * extent / bins as real < BinCentre(i, bins, extent)
    ensures BinCentre(i, bins, extent) < (i + 1) as real * extent / bins as real
    ensures BinCentre(i, bins, extent) - i as real * extent / bins as real
         == (i + 1) as real * extent / bins as real - BinCentre(i, bins, extent)
    ensures 0.0 < BinCentre(i, bins, extent) < extent
  {
  }

  /**
   * `compute_raw_coords`: with bins, the centre of the selected bin on each
   * axis (which needs the screen size); without bins, the coordinates as given.
   */
  function ComputeRawCoords(c: ActionSpaceConfig, a: Action): (r: Result<(real, real), Error>)
    ensures c.coordBins.None? ==> (r.Success? <==> a.coords.Some?)
    ensures c.coordBins.None? && a.coords.Some? ==> r.value == a.coords.value
    ensures r == Failure(ScreenSizeMissing) <==> c.coordBins.Some? && !HasScreenSize(c)
    ensures r == Failure(ZeroDivision) <==>
      c.coordBins.Some? && HasScreenSize(c) && a.coords.Some? && (c.coordBins.value.0 == 0 || c.coordBins.value.1 == 0)
    ensures r.Failure? ==> r.error in {ScreenSizeMissing, MissingActionField("coords"), ZeroDivision}
    ensures r == Failure(MissingActionField("coords")) <==> a.coords.None? && (c.coordBins.None? || HasScreenSize(c))
    ensures (c.coordBins.Some? && HasScreenSize(c) && a.coords.Some? &&
             c.coordBins.value.0 != 0 && c.coordBins.value.1 != 0) ==> r.Success?
    ensures c.coordBins.Some? && HasScreenSize(c) && a.coords.Some? && r.Success? ==>
      r.value == (BinCentre(Trunc(a.coords.value.0), c.coordBins.value.0, c.screenWidth.value),
                  BinCentre(Trunc(a.coords.value.1), c.coordBins.value.1, c.screenHeight.value))
  {
    match c.coordBins
    case Some(bins) =>
      var (nx, ny) := bins;
      if !HasScreenSize(c) then Failure(ScreenSizeMissing)
      else if a.coords.None? then Failure(MissingActionField("coords"))
      else if nx == 0 || ny == 0 then Failure(ZeroDivision)
      else
        var left := BinCentre(Trunc(a.coords.value.0), nx, c.screenWidth.value);
        var top := BinCentre(Trunc(a.coords.value.1), ny, c.screenHeight.value);
        Success((left, top))
    case None =>
      if a.coords.None? then Failure(MissingActionField("coords"))
      else Success(a.coords.value)
  }

  /**
   * Binned coordinates that name an in-range bin on a screen of positive size
   * land at the middle of that bin (equally far from both edges on each axis),
   * hence strictly inside the screen.
   */
  lemma BinnedCoordsInsideBin(c: ActionSpaceConfig, a: Action, i: int, j: int)
    requires c.coordBins.Some? && HasScreenSize(c)
    requires c.screenWidth.value > 0.0 && c.screenHeight.value > 0.0
    requires a.coords == Some((i as real, j as real))
    requires 0 <= i < c.coordBins.value.0 && 0 <= j < c.coordBins.value.1
    ensures ComputeRawCoords(c, a).Success?
    ensures var (left, top) := ComputeRawCoords(c, a).value;
      var (nx, ny) := c.coordBins.value;
      var (w, h) := (c.screenWidth.value, c.screenHeight.value);
      && i as real * w / nx as real < left < (i + 1) as real * w / nx as real
      && j as real * h / ny as real < top < (j + 1) as real * h / ny as real
      && left - i as real * w / nx as real == (i + 1) as real * w / nx as real - left
      && top - j as real * h / ny as real == (j + 1) as real * h / ny as real - top
      && 0.0 < left < w && 0.0 < top < h
  {
    TruncOfWhole(i);
    TruncOfWhole(j);
    BinCentreInsideBin(i, c.coordBins.value.0, c.screenWidth.value);
    BinCentreInsideBin(j, c.coordBins.value.1, c.screenHeight.value);
  }

  /**
   * A schema that could be built guarantees that binned coordinates can be
   * converted whenever the action carries them and the bins are non-zero.
   */
  lemma SchemaImpliesCoordsComputable(c: ActionSpaceConfig, a: Action)
    requires UsesGroup(c.actionTypes, CoordsGroup) && GetActionSpace(c).Success?
    requires a.coords.Some?
    requires c.coordBins.Some? ==> c.coordBins.value.0 != 0 && c.coordBins.value.1 != 0
    ensures ComputeRawCoords(c, a).Success?
  {
  }

  /** With 4x2 bins on an 800x600 screen, bin (0, 0) is at (100, 150) and bin (3, 1) at (700, 450). */
  lemma ExampleBinnedCoords()
    ensures var c := ActionSpaceConfig([ClickCoords], Some(800.0), Some(600.0), Some((4, 2)));
      && ComputeRawCoords(c, Action(0, coords := Some((0.0, 0.0)))) == Success((100.0, 150.0))
      && ComputeRawCoords(c, Action(0, coords := Some((3.0, 1.0)))) == Success((700.0, 450.0))
  {
  }

  /** The name `get_preset` uses when called without one. */
  const DefaultPresetName: string := "all_supported"

  /** The kinds of the "all_supported" preset, in order. */
  const AllSupportedActionTypes: seq<ActionType> :=
    [NoOp, ClickCoords, ClickElement, TypeText, FocusElementAndTypeText]

  /** `get_preset`: the one named preset, with every other field at its default. */
  function GetPreset(name: string := DefaultPresetName): (r: Result<ActionSpaceConfig, Error>)
    ensures r.Success? <==> name == "all_supported"
    ensures r.Failure? ==> r.error == UnknownPreset(name)
  {
    if name == "all_supported" then Success(ActionSpaceConfig(AllSupportedActionTypes))
    else Failure(UnknownPreset(name))
  }

  /**
   * The default preset has exactly the five supported kinds, no screen size,
   * no bins and default limits, so its schema cannot be built until the
   * screen size is known.
   */
  lemma DefaultPresetContents()
    ensures GetPreset().Success?
    ensures var c := GetPreset().value;
      && c.actionTypes == [NoOp, ClickCoords, ClickElement, TypeText, FocusElementAndTypeText]
      && c.screenWidth.None? && c.screenHeight.None? && c.coordBins.None?
      && c.allowedKeys == DefaultAllowedKeys && c.textMaxLen == TypingMaxLength && c.textCharset == AsciiCharset
      && GetActionSpace(c) == Failure(ScreenSizeMissing)
  {
  }

  /**
   * Once the screen size is filled in, the default preset's schema is a
   * five-way selector plus `coords`, `ref` and `text`, and no `key` or `field`.
   */
  lemma DefaultPresetSchema(w: real, h: real)
    requires w != 0.0 && h != 0.0
    ensures GetPreset().Success?
    ensures var c := GetPreset().value.(screenWidth := Some(w), screenHeight := Some(h));
      GetActionSpace(c).Success? &&
      var s := GetActionSpace(c).value;
      && ActionTypeField in s && CoordsField in s && RefField in s && TextField in s
      && KeyField !in s && FieldIndexField !in s
      && s[ActionTypeField] == Discrete(5)
      && s[CoordsField] == Box((0.0, 0.0), (w, h))
      && s[RefField] == Discrete(MaxRef)
      && s[TextField] == Text(TypingMaxLength, AsciiCharset)
  {
    var c := GetPreset().value.(screenWidth := Some(w), screenHeight := Some(h));
    assert InGroup(c.actionTypes[1], CoordsGroup);
    assert InGroup(c.actionTypes[2], ElementGroup);
    assert InGroup(c.actionTypes[3], TextGroup);
    assert !UsesGroup(c.actionTypes, FieldGroup);
    assert PressKey !in c.actionTypes;
    SchemaDescriptors(c);
  }
}
