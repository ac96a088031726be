/**
  The settings screen's numeric input boxes. Each of the seven boxes runs the same machine:
  a press gives it focus and marks it editing, Escape away from the box drops the mark, and
  while it is marked and focused the keyboard edits its buffer and every buffer that parses
  commits a clamped value to the box's setting. A second system drops the mark of every box
  that has lost focus.

  The editing mark is an ECS component inserted or removed through `Commands`, which take
  effect after the system has run: within one run a box reads the mark it had before.
*/
module InputHandlers {
  import opened Wrappers
  import opened Numerics
  import opened Types
  import opened Resources
  import opened NumericInput

  /** `InputFocus`: the field whose box has the keyboard, if any. */
  class InputFocus {
    var focused: Option<InputField>

    /** `InputFocus::default`: no box has the keyboard. */
    constructor()
      ensures focused == None
    {
      focused := None;
    }
  }

  /** What a box's label shows: a setting formatted with a number of decimals, or the buffer being typed. */
  datatype BoxText = Formatted(value: real, decimals: nat) | Editing(text: string)

  // ---------------------------------------------------------------- the seven fields

  /** All fields, in the order `clear_other_editing_states_system` visits them. */
  const AllFields: seq<InputField> := [Dpi, Cm, Fov, FresnelIntensity, FresnelPower, DirectionalLight, AmbientLight]

  lemma AllFieldsListed(f: InputField)
    ensures f in AllFields
  {
    match f
    case Dpi => assert AllFields[0] == f;
    case Cm => assert AllFields[1] == f;
    case Fov => assert AllFields[2] == f;
    case FresnelIntensity => assert AllFields[3] == f;
    case FresnelPower => assert AllFields[4] == f;
    case DirectionalLight => assert AllFields[5] == f;
    case AmbientLight => assert AllFields[6] == f;
  }

  /** The setting a field edits. */
  function FieldValue(st: SettingsState, f: InputField): real {
    match f
    case Dpi => st.dpi
    case Cm => st.cm360
    case Fov => st.fov
    case FresnelIntensity => st.fresnelIntensity
    case FresnelPower => st.fresnelPower
    case DirectionalLight => st.directionalLightIlluminance
    case AmbientLight => st.ambientLightBrightness
  }

  /** The settings with the setting of field `f` replaced by `v`. */
  function WithField(st: SettingsState, f: InputField, v: real): (r: SettingsState)
    ensures FieldValue(r, f) == v
    ensures forall g :: g != f ==> FieldValue(r, g) == FieldValue(st, g)
  {
    match f
    case Dpi => st.(dpi := v)
    case Cm => st.(cm360 := v)
    case Fov => st.(fov := v)
    case FresnelIntensity => st.(fresnelIntensity := v)
    case FresnelPower => st.(fresnelPower := v)
    case DirectionalLight => st.(directionalLightIlluminance := v)
    case AmbientLight => st.(ambientLightBrightness := v)
  }

  /** Writing a field back to its old value restores the settings: a field write touches nothing else. */
  lemma WithFieldOnlyField(st: SettingsState, f: InputField, v: real)
    ensures WithField(WithField(st, f, v), f, FieldValue(st, f)) == st
    ensures WithField(st, f, FieldValue(st, f)) == st
  {
    match f
    case Dpi =>
    case Cm =>
    case Fov =>
    case FresnelIntensity =>
    case FresnelPower =>
    case DirectionalLight =>
    case AmbientLight =>
  }

  /** The lower end of the range a field's typed value is clamped into. */
  function Lo(f: InputField): real {
    match f
    case Dpi => 100.0
    case Cm => 0.1
    case Fov => 50.0
    case FresnelIntensity => 0.0
    case FresnelPower => 0.1
    case DirectionalLight => -1000.0
    case AmbientLight => 0.0
  }

  /** The upper end of the range a field's typed value is clamped into. */
  function Hi(f: InputField): (r: real)
    ensures Lo(f) < r
  {
    match f
    case Dpi => 20000.0
    case Cm => 300.0
    case Fov => 150.0
    case FresnelIntensity => 5.0
    case FresnelPower => 10.0
    case DirectionalLight => 10000.0
    case AmbientLight => 10000.0
  }

  /** Whether a field's buffer may take a leading '-': every field but the ambient light. */
  predicate AllowsMinus(f: InputField) {
    f != AmbientLight
  }

  /** Decimals the label shows when Escape ends editing. */
  function EscapeDecimals(f: InputField): nat {
    match f
    case Dpi => 0
    case Cm => 2
    case Fov => 0
    case FresnelIntensity => 1
    case FresnelPower => 1
    case DirectionalLight => 1
    case AmbientLight => 0
  }

  /** Decimals the label shows when losing focus ends editing. */
  function ClearDecimals(f: InputField): nat {
    match f
    case Dpi => 0
    case Cm => 2
    case Fov => 0
    case FresnelIntensity => 2
    case FresnelPower => 2
    case DirectionalLight => 1
    case AmbientLight => 0
  }

  /** Assigns the setting of field `f`. */
  method StoreField(settings: Settings, f: InputField, v: real)
    modifies settings
    ensures settings.State() == WithField(old(settings.State()), f, v)
  {
    match f
    case Dpi => settings.StoreDpi(v);
    case Cm => settings.StoreCm360(v);
    case Fov => settings.StoreFov(v);
    case FresnelIntensity => settings.StoreFresnelIntensity(v);
    case FresnelPower => settings.StoreFresnelPower(v);
    case DirectionalLight => settings.StoreDirectionalLightIlluminance(v);
    case AmbientLight => settings.StoreAmbientLightBrightness(v);
  }

  // ---------------------------------------------------------------- one box, one frame

  /** Escape went down while the pointer is off the box and the box was marked editing. */
  predicate Escaped(keys: Keys, interaction: Interaction, editing: bool) {
    interaction == NoInteraction && Escape in keys.justPressed && editing
  }

  /** The focus after a box's run: a press takes it, Escape gives it up if this box held it. */
  function FocusAfter(field: InputField, focused: Option<InputField>, keys: Keys, interaction: Interaction, editing: bool): Option<InputField> {
    if interaction == Pressed then Some(field)
    else if Escaped(keys, interaction, editing) && focused == Some(field) then None
    else focused
  }

  /** The editing mark once the run's commands apply: inserted by a press, removed by Escape. */
  function MarkAfter(keys: Keys, interaction: Interaction, editing: bool): bool {
    if interaction == Pressed then true
    else if Escaped(keys, interaction, editing) then false
    else editing
  }

  /** Whether the run edits the buffer: the box was marked before the run and holds focus now. */
  predicate ReadsKeys(field: InputField, focused: Option<InputField>, keys: Keys, interaction: Interaction, editing: bool) {
    editing && FocusAfter(field, focused, keys, interaction, editing) == Some(field)
  }

  /** The settings after a buffer was parsed: a number is clamped into the field's range and stored. */
  function Committed(st: SettingsState, field: InputField, parsed: Option<real>): SettingsState {
    if parsed.Some? then WithField(st, field, Clamp(parsed.value, Lo(field), Hi(field))) else st
  }

  /** The label after the run, `None` when the run leaves it alone. */
  function LabelAfter(field: InputField, st: SettingsState, focused: Option<InputField>, keys: Keys,
                      interaction: Interaction, editing: bool, text: string): Option<BoxText>
  {
    if ReadsKeys(field, focused, keys, interaction, editing) then Some(Editing(text + ['|']))
    else if Escaped(keys, interaction, editing) then Some(Formatted(FieldValue(st, field), EscapeDecimals(field)))
    else None
  }

  /**
    `dpi_input_box_system`, `cm_input_box_system`, …, `ambient_light_input_box_system`, one box of
    `field` for one frame. `editing` is the box's mark as the run finds it; `markAfter` is the mark
    once the run's commands apply, and `shown` the text written into the box's label, if any.
  */
  method InputBoxSystem(field: InputField, settings: Settings, focus: InputFocus, fl: Float, keys: Keys,
                        interaction: Interaction, editing: bool, buf: TextBuffer)
    returns (markAfter: bool, shown: Option<BoxText>)
    modifies settings, focus, buf
    ensures focus.focused == FocusAfter(field, old(focus.focused), keys, interaction, editing)
    ensures markAfter == MarkAfter(keys, interaction, editing)
    ensures buf.text == if ReadsKeys(field, old(focus.focused), keys, interaction, editing)
      then Processed(keys, old(buf.text), AllowsMinus(field)) else old(buf.text)
    ensures settings.State() == if ReadsKeys(field, old(focus.focused), keys, interaction, editing)
      then Committed(old(settings.State()), field, fl.parse(buf.text)) else old(settings.State())
    ensures shown == LabelAfter(field, old(settings.State()), old(focus.focused), keys, interaction, editing, buf.text)
  {
    var st := settings.State();
    markAfter := editing;
    shown := None;
    if interaction == Pressed {
      focus.focused := Some(field);
      markAfter := true;
    }
    if interaction == NoInteraction && Escape in keys.justPressed && editing {
      markAfter := false;
      shown := Some(Formatted(FieldValue(st, field), EscapeDecimals(field)));
      if focus.focused == Some(field) {
        focus.focused := None;
      }
    }
    if editing && focus.focused == Some(field) {
      var typed := EditBuffer(field, settings, fl, keys, buf);
      shown := Some(typed);
    }
  }

  /** The editing branch of a box's run: the keys edit the buffer, and a buffer that parses is committed. */
  method EditBuffer(field: InputField, settings: Settings, fl: Float, keys: Keys, buf: TextBuffer)
    returns (shown: BoxText)
    modifies settings, buf
    ensures buf.text == Processed(keys, old(buf.text), AllowsMinus(field))
    ensures settings.State() == Committed(old(settings.State()), field, fl.parse(buf.text))
    ensures shown == Editing(buf.text + ['|'])
  {
    ProcessNumericInput(keys, buf, AllowsMinus(field));
    var parsed := fl.parse(buf.text);
    if parsed.Some? {
      StoreField(settings, field, Clamp(parsed.value, Lo(field), Hi(field)));
    }
    shown := Editing(buf.text + ['|']);
  }

  // ---------------------------------------------------------------- properties of one run

  /** Pressing a box gives it focus and marks it editing. */
  lemma PressFocuses(field: InputField, focused: Option<InputField>, keys: Keys, editing: bool)
    ensures FocusAfter(field, focused, keys, Pressed, editing) == Some(field)
    ensures MarkAfter(keys, Pressed, editing)
    ensures ReadsKeys(field, focused, keys, Pressed, editing) == editing
  {
  }

  /**
    Escape away from a marked box drops its mark, gives up the focus if this box held it,
    leaves the buffer alone and shows the setting formatted.
  */
  lemma EscapeReleases(field: InputField, st: SettingsState, focused: Option<InputField>, keys: Keys, editing: bool, text: string)
    requires Escaped(keys, NoInteraction, editing)
    ensures !MarkAfter(keys, NoInteraction, editing)
    ensures FocusAfter(field, focused, keys, NoInteraction, editing) == if focused == Some(field) then None else focused
    ensures !ReadsKeys(field, focused, keys, NoInteraction, editing)
    ensures LabelAfter(field, st, focused, keys, NoInteraction, editing, text) ==
      Some(Formatted(FieldValue(st, field), EscapeDecimals(field)))
  {
  }

  /** A buffer that parses sets the field's setting to the value clamped into its range, and nothing else. */
  lemma CommitClamps(st: SettingsState, field: InputField, v: real)
    ensures var r := Committed(st, field, Some(v));
      && Lo(field) <= FieldValue(r, field) <= Hi(field)
      && (Lo(field) <= v <= Hi(field) ==> FieldValue(r, field) == v)
      && (v < Lo(field) ==> FieldValue(r, field) == Lo(field))
      && (v > Hi(field) ==> FieldValue(r, field) == Hi(field))
      && WithField(r, field, FieldValue(st, field)) == st
  {
    WithFieldOnlyField(st, field, Clamp(v, Lo(field), Hi(field)));
  }

  /** A buffer that does not parse leaves the settings as they were. */
  lemma UnparsableKeeps(st: SettingsState, field: InputField)
    ensures Committed(st, field, None) == st
  {
  }

  /** While a box reads the keys, its label is the buffer followed by the caret '|'. */
  lemma CaretShown(field: InputField, st: SettingsState, focused: Option<InputField>, keys: Keys,
                   interaction: Interaction, editing: bool, text: string)
    requires ReadsKeys(field, focused, keys, interaction, editing)
    ensures var l := LabelAfter(field, st, focused, keys, interaction, editing, text);
      l.Some? && l.value.Editing? && l.value.text[..|text|] == text && l.value.text[|text|..] == "|"
  {
  }

  /** A box reads the keys only when it was marked before the run and holds the focus after it. */
  lemma ReadsOnlyWhenFocused(field: InputField, focused: Option<InputField>, keys: Keys, interaction: Interaction, editing: bool)
    ensures ReadsKeys(field, focused, keys, interaction, editing) <==>
      editing && !Escaped(keys, interaction, editing) && (interaction == Pressed || focused == Some(field))
  {
  }

  /** The ambient-light buffer never gains a '-'; the others may start with one. */
  lemma AmbientRejectsMinus(keys: Keys, buf: string)
    ensures var t := Processed(keys, buf, AllowsMinus(AmbientLight));
      forall j :: |buf| <= j < |t| ==> t[j] != '-'
    ensures forall f :: f != AmbientLight ==> AllowsMinus(f)
  {
    NoMinusWhenDisallowed(keys, buf);
  }

  // ---------------------------------------------------------------- one focus for all boxes

  /** The fields whose mark survives `clear_other_editing_states_system`. */
  function StillEditing(editing: set<InputField>, focused: Option<InputField>): set<InputField> {
    set f | f in editing && focused == Some(f)
  }

  /**
    `clear_other_editing_states_system`: every marked box other than the focused one loses its
    mark, and its label shows its setting formatted. Returns the marks once the commands apply
    and the labels written.
  */
  method ClearOtherEditingStates(settings: Settings, focus: InputFocus, editing: set<InputField>)
    returns (remaining: set<InputField>, labels: map<InputField, BoxText>)
    ensures remaining == StillEditing(editing, focus.focused)
    ensures labels.Keys == editing - remaining
    ensures forall f :: f in labels ==> labels[f] == Formatted(FieldValue(settings.State(), f), ClearDecimals(f))
  {
    remaining := editing;
    labels := map[];
    for i := 0 to |AllFields|
      invariant remaining == set f | f in editing && (f in AllFields[..i] ==> focus.focused == Some(f))
      invariant labels.Keys == editing - remaining
      invariant forall f :: f in labels ==> labels[f] == Formatted(FieldValue(settings.State(), f), ClearDecimals(f))
    {
      var f := AllFields[i];
      assert AllFields[..i + 1] == AllFields[..i] + [f];
      if f in editing && focus.focused != Some(f) {
        remaining := remaining - {f};
        labels := labels[f := Formatted(FieldValue(settings.State(), f), ClearDecimals(f))];
      }
    }
    assert AllFields[..|AllFields|] == AllFields;
    forall f | f in editing
      ensures f in AllFields
    {
      AllFieldsListed(f);
    }
  }

  /** After the clearing pass at most one box is editing, and it is the focused one. */
  lemma AtMostOneEditing(editing: set<InputField>, focused: Option<InputField>)
    ensures var s := StillEditing(editing, focused);
      |s| <= 1 && (forall f :: f in s ==> focused == Some(f))
  {
    var s := StillEditing(editing, focused);
    if focused == None {
      assert s == {};
    } else {
      assert s <= {focused.value};
      if focused.value in editing {
        assert s == {focused.value};
      } else {
        assert s == {};
      }
    }
  }
}
