/** Normalisation of the user's theme settings before a theme is built: the
    "blank" shorthand, margin and padding shorthands expanded to one entry per
    side (the shorthand of section 8.3 of CSS 2.1), and the exponent format
    parsed. */
module ThemeConfig {
  import opened Common

  // The option names of the theme. Only their distinctness matters here.
  const META_NAME := "name"
  const LP_MINIMAL := "minimal2"
  const ELEMENT_BLANK_SHORTHAND := "blank"
  const EXPONENT_FORMAT := "exponent_format"
  const PLOT_MARGIN := "plot_margin"
  const PANEL_PADDING := "panel_inset"
  const ELEM_MARGIN := "margin"
  const ELEM_PADDING := "inset"
  /** Per-side keys, in the order top, right, bottom, left. */
  const MARGIN_SIDES: seq<string> := ["margin_t", "margin_r", "margin_b", "margin_l"]
  const PADDING_SIDES: seq<string> := ["inset_t", "inset_r", "inset_b", "inset_l"]

  datatype ExponentFormat = E | POW

  /** A theme setting: a plain option value, or one of the objects the
      conversions produce. */
  datatype Setting = Plain(v: Value) | ElementBlank | ExpFormat(format: ExponentFormat)

  // ---------------------------------------------------------------------------
  // "blank".

  predicate IsBlankShorthand(value: Setting) {
    value == Plain(JStr(ELEMENT_BLANK_SHORTHAND)) ||
    (value.Plain? && value.v.JMap? && "name" in value.v.fields && value.v.fields["name"] == JStr("blank"))
  }

  /** `convertElementBlank`: the "blank" string, or a map named "blank", becomes
      the blank element; every other value is kept. */
  function ConvertElementBlank(value: Setting): (r: Setting)
    ensures IsBlankShorthand(value) ==> r == ElementBlank
    ensures !IsBlankShorthand(value) ==> r == value
  {
    if value.Plain? && value.v == JStr(ELEMENT_BLANK_SHORTHAND) then ElementBlank
    else if value.Plain? && value.v.JMap? && "name" in value.v.fields && value.v.fields["name"] == JStr("blank") then ElementBlank
    else value
  }

  // ---------------------------------------------------------------------------
  // Side thickness.

  /** The thickness values given: a number, or a list of numbers and nulls. */
  function ThicknessValues(obj: Setting): (r: Result<seq<Option<real>>>)
    ensures r.Ok? <==> obj.Plain? && (obj.v.JNum? || (obj.v.JList? && forall i :: 0 <= i < |obj.v.items| ==>
                                                        obj.v.items[i].JNull? || obj.v.items[i].JNum?))
    ensures r.Err? && obj.Plain? && obj.v.JList? ==> r.error.IllegalArgument?
    ensures r.Err? && !(obj.Plain? && obj.v.JList?) ==> r.error.IllegalState?
    ensures r.Ok? && obj.v.JNum? ==> r.value == [Some(obj.v.n)]
    ensures r.Ok? && obj.v.JList? ==> |r.value| == |obj.v.items| && forall i :: 0 <= i < |r.value| ==>
      (r.value[i].Some? <==> obj.v.items[i].JNum?) && (r.value[i].Some? ==> r.value[i].value == obj.v.items[i].n)
  {
    if obj.Plain? && obj.v.JNum? then Ok([Some(obj.v.n)])
    else if obj.Plain? && obj.v.JList? then
      var items := obj.v.items;
      if forall i :: 0 <= i < |items| ==> items[i].JNull? || items[i].JNum? then
        Ok(seq(|items|, i requires 0 <= i < |items| => if items[i].JNum? then Some(items[i].n) else None))
      else Err(IllegalArgument("The option requires a list of numbers."))
    else Err(IllegalState("The option should be specified using number or list of numbers."))
  }

  /** The CSS shorthand rule, as a reference: which of `n` given values side `i`
      (top 0, right 1, bottom 2, left 3) takes. A missing right copies the top,
      a missing bottom the top, a missing left the right. */
  function SideSource(n: nat, i: nat): (j: nat)
    requires 1 <= n && i < 4
    ensures j < n && j <= i
  {
    if i < n then i else if i == 1 then 0 else SideSource(n, i - 2)
  }

  /** `toThickness`: one to four values expanded to [top, right, bottom, left]. */
  function ToThickness(obj: Setting): (r: Result<seq<Option<real>>>)
    ensures r.Ok? <==> ThicknessValues(obj).Ok? && 1 <= |ThicknessValues(obj).value| <= 4
    ensures r.Ok? ==> |r.value| == 4
    ensures r.Err? && ThicknessValues(obj).Ok? ==> r.error.IllegalState?
  {
    var t := ThicknessValues(obj);
    if t.Err? then Err(t.error)
    else
      var thickness := t.value;
      match |thickness|
      case 1 => Ok([thickness[0], thickness[0], thickness[0], thickness[0]])
      case 2 => Ok([thickness[0], thickness[1], thickness[0], thickness[1]])
      case 3 => Ok([thickness[0], thickness[1], thickness[2], thickness[1]])
      case 4 => Ok([thickness[0], thickness[1], thickness[2], thickness[3]])
      case _ => Err(IllegalState("The option accept a number or a list of one, two, three or four numbers."))
  }

  /** `toThickness` follows the shorthand rule of section 8.3 of CSS 2.1. */
  lemma ToThicknessIsCssShorthand(obj: Setting, i: nat)
    requires ToThickness(obj).Ok? && i < 4
    ensures var values := ThicknessValues(obj).value;
      ToThickness(obj).value[i] == values[SideSource(|values|, i)]
  {
  }

  /** A single number sets all four sides. */
  lemma ToThicknessNumber(n: real)
    ensures ToThickness(Plain(JNum(n))) == Ok([Some(n), Some(n), Some(n), Some(n)])
  {
  }

  // ---------------------------------------------------------------------------
  // Margins and padding.

  /** The per-side entries of the sides that have a value. */
  function SidesSpec(sides: seq<Option<real>>, names: seq<string>): (r: map<string, Value>)
    requires |sides| == 4 && |names| == 4
    ensures forall k :: k in r <==> exists i :: 0 <= i < 4 && names[i] == k && sides[i].Some?
  {
    map k | k in names && exists i :: 0 <= i < 4 && names[i] == k && sides[i].Some? ::
      var i := FirstIndex(names, k); if sides[i].Some? then JNum(sides[i].value) else JNull
  }

  /** With distinct side names, each given side is stored under its own name. */
  lemma SidesSpecValues(sides: seq<Option<real>>, names: seq<string>, i: nat)
    requires |sides| == 4 && |names| == 4 && NoDuplicates(names) && i < 4 && sides[i].Some?
    ensures names[i] in SidesSpec(sides, names) && SidesSpec(sides, names)[names[i]] == JNum(sides[i].value)
  {
    var j := FirstIndex(names, names[i]);
    assert j == i;
  }

  /** The conversion shared by `convertMargins` and `convertPadding`: the
      top-level key is replaced by its per-side spec, and a map holding the
      element key has that entry replaced by the per-side entries, keeping the
      others. Every other value is kept. */
  function ConvertSides(key: string, value: Setting, topKey: string, elemKey: string, names: seq<string>): (r: Result<Setting>)
    requires |names| == 4
    ensures key == topKey ==>
      (r.Ok? <==> ToThickness(value).Ok?) &&
      (r.Ok? ==> r.value == Plain(JMap(SidesSpec(ToThickness(value).value, names))))
    ensures key != topKey && value.Plain? && value.v.JMap? && elemKey in value.v.fields ==>
      (r.Ok? <==> ToThickness(Plain(value.v.fields[elemKey])).Ok?)
    ensures key != topKey && value.Plain? && value.v.JMap? && elemKey in value.v.fields && r.Ok? ==>
      r.value.Plain? && r.value.v.JMap? &&
      r.value.v.fields.Keys == (value.v.fields.Keys - {elemKey}) + SidesSpec(ToThickness(Plain(value.v.fields[elemKey])).value, names).Keys
    ensures key != topKey && !(value.Plain? && value.v.JMap? && elemKey in value.v.fields) ==> r == Ok(value)
  {
    if key == topKey then
      var t := ToThickness(value);
      if t.Err? then Err(t.error) else Ok(Plain(JMap(SidesSpec(t.value, names))))
    else if value.Plain? && value.v.JMap? && elemKey in value.v.fields then
      var t := ToThickness(Plain(value.v.fields[elemKey]));
      if t.Err? then Err(t.error)
      else Ok(Plain(JMap((value.v.fields - {elemKey}) + SidesSpec(t.value, names))))
    else Ok(value)
  }

  /** The entries of a converted map that are neither the element key nor a
      side name keep their values. */
  lemma ConvertSidesKeepsOthers(key: string, value: Setting, topKey: string, elemKey: string, names: seq<string>, k: string)
    requires |names| == 4
    requires key != topKey && value.Plain? && value.v.JMap? && elemKey in value.v.fields
    requires ConvertSides(key, value, topKey, elemKey, names).Ok?
    requires k in value.v.fields && k != elemKey && k !in names
    ensures ConvertSides(key, value, topKey, elemKey, names).value.v.fields[k] == value.v.fields[k]
  {
  }

  /** With distinct side names, a converted map holds each given side's value
      under that side's name, overriding what the map held there; a side
      without a value leaves the map's entry under its name as it was. */
  lemma ConvertSidesSideValues(key: string, value: Setting, topKey: string, elemKey: string, names: seq<string>, i: nat)
    requires |names| == 4 && NoDuplicates(names) && i < 4
    requires key != topKey && value.Plain? && value.v.JMap? && elemKey in value.v.fields
    requires ConvertSides(key, value, topKey, elemKey, names).Ok?
    ensures var sides := ToThickness(Plain(value.v.fields[elemKey])).value;
      var fields := ConvertSides(key, value, topKey, elemKey, names).value.v.fields;
      (sides[i].Some? ==> names[i] in fields && fields[names[i]] == JNum(sides[i].value)) &&
      (sides[i].None? && names[i] != elemKey ==>
         (names[i] in fields <==> names[i] in value.v.fields) &&
         (names[i] in value.v.fields ==> fields[names[i]] == value.v.fields[names[i]]))
  {
    var sides := ToThickness(Plain(value.v.fields[elemKey])).value;
    if sides[i].Some? {
      SidesSpecValues(sides, names, i);
    } else {
      assert names[i] !in SidesSpec(sides, names);
    }
  }

  function ConvertMargins(key: string, value: Setting): Result<Setting> {
    ConvertSides(key, value, PLOT_MARGIN, ELEM_MARGIN, MARGIN_SIDES)
  }

  function ConvertPadding(key: string, value: Setting): Result<Setting> {
    ConvertSides(key, value, PANEL_PADDING, ELEM_PADDING, PADDING_SIDES)
  }

  // ---------------------------------------------------------------------------
  // Exponent format.

  /** `convertExponentFormat`: under its key, "e" and "pow" in any letter case
      are accepted and anything else is an error; other keys are untouched. */
  function ConvertExponentFormat(key: string, value: Setting): (r: Result<Setting>)
    ensures key != EXPONENT_FORMAT ==> r == Ok(value)
    ensures key == EXPONENT_FORMAT ==>
      (r == Ok(ExpFormat(E)) <==> value.Plain? && value.v.JStr? && Lower(value.v.s) == "e") &&
      (r == Ok(ExpFormat(POW)) <==> value.Plain? && value.v.JStr? && Lower(value.v.s) == "pow") &&
      (r.Err? ==> r.error.IllegalArgument?) &&
      (r.Ok? ==> r.value.ExpFormat?)
  {
    if key == EXPONENT_FORMAT then
      if value.Plain? && value.v.JStr? && Lower(value.v.s) == "e" then Ok(ExpFormat(E))
      else if value.Plain? && value.v.JStr? && Lower(value.v.s) == "pow" then Ok(ExpFormat(POW))
      else Err(IllegalArgument("Illegal value. exponent_format expected value is a string: e|pow."))
    else Ok(value)
  }

  /** The exponent format is read regardless of letter case: a string, its
      lower-case form and its upper-case form convert alike. */
  lemma ExponentFormatCaseInsensitive(s: string)
    ensures ConvertExponentFormat(EXPONENT_FORMAT, Plain(JStr(s))) ==
      ConvertExponentFormat(EXPONENT_FORMAT, Plain(JStr(Lower(s))))
    ensures ConvertExponentFormat(EXPONENT_FORMAT, Plain(JStr(s))) ==
      ConvertExponentFormat(EXPONENT_FORMAT, Plain(JStr(Upper(s))))
  {
  }

  // ---------------------------------------------------------------------------
  // The whole settings map.

  /** One setting through the chain of conversions; the first failure stops it. */
  function ConvertValue(key: string, value: Setting): (r: Result<Setting>) {
    var v1 := ConvertElementBlank(value);
    var v2 := ConvertMargins(key, v1);
    if v2.Err? then v2
    else
      var v3 := ConvertPadding(key, v2.value);
      if v3.Err? then v3 else ConvertExponentFormat(key, v3.value)
  }

  /** The blank shorthand wins over everything but the exponent-format key:
      a blank setting under any other key stays blank. */
  lemma BlankStaysBlank(key: string, value: Setting)
    requires IsBlankShorthand(value) && key != PLOT_MARGIN && key != PANEL_PADDING && key != EXPONENT_FORMAT
    ensures ConvertValue(key, value) == Ok(ElementBlank)
  {
  }

  /** The user's options after conversion, with the theme name. */
  datatype ThemeSpec = ThemeSpec(themeName: string, options: map<string, Setting>)

  /** `mapValues` over the settings, in their order, with the conversion
      `convert`; the first failing value fails the whole. */
  function ConvertAll(settings: LinkedMap<string, Setting>, keys: seq<string>,
                      convert: (string, Setting) -> Result<Setting>): (r: Result<map<string, Setting>>)
    requires forall k :: k in keys ==> k in settings.entries
    ensures r.Ok? ==> r.value.Keys == set k | k in keys
  {
    if |keys| == 0 then Ok(map[])
    else
      var prev := ConvertAll(settings, keys[..|keys| - 1], convert);
      var k := keys[|keys| - 1];
      var c := convert(k, settings.entries[k]);
      if prev.Err? then prev
      else if c.Err? then Err(c.error)
      else
        assert keys == keys[..|keys| - 1] + [k];
        Ok(prev.value[k := c.value])
  }

  /** The conversion succeeds exactly when every value converts, and then holds
      each converted value under its key. */
  lemma {:induction false} ConvertAllValues(settings: LinkedMap<string, Setting>, keys: seq<string>,
                                            convert: (string, Setting) -> Result<Setting>)
    requires forall k :: k in keys ==> k in settings.entries
    ensures ConvertAll(settings, keys, convert).Ok? <==> forall i :: 0 <= i < |keys| ==> convert(keys[i], settings.entries[keys[i]]).Ok?
    ensures ConvertAll(settings, keys, convert).Ok? ==> forall i :: 0 <= i < |keys| ==>
      ConvertAll(settings, keys, convert).value[keys[i]] == convert(keys[i], settings.entries[keys[i]]).value
  {
    if |keys| > 0 {
      var init := keys[..|keys| - 1];
      ConvertAllValues(settings, init, convert);
      assert forall i :: 0 <= i < |init| ==> init[i] == keys[i];
    }
  }

  /** The theme name: the name setting if present, else the minimal theme. A
      non-string name is rendered with `toString`. */
  function ThemeName(settings: LinkedMap<string, Setting>, toString: Setting -> string): (r: string)
    ensures META_NAME !in settings.entries ==> r == LP_MINIMAL
    ensures META_NAME in settings.entries && settings.entries[META_NAME].Plain? && settings.entries[META_NAME].v.JStr? ==>
      r == settings.entries[META_NAME].v.s
  {
    if META_NAME !in settings.entries then LP_MINIMAL
    else
      var v := settings.entries[META_NAME];
      if v.Plain? && v.v.JStr? then v.v.s else toString(v)
  }

  /** The `ThemeConfig` constructor, up to building the theme. */
  function NewThemeConfig(settings: LinkedMap<string, Setting>, toString: Setting -> string): (r: Result<ThemeSpec>)
    requires settings.Valid()
    ensures r.Ok? ==> r.value.themeName == ThemeName(settings, toString) && r.value.options.Keys == settings.entries.Keys
    ensures r.Ok? <==> forall k :: k in settings.entries ==> ConvertValue(k, settings.entries[k]).Ok?
    ensures r.Ok? ==> forall k :: k in settings.entries ==>
      ConvertValue(k, settings.entries[k]).Ok? && r.value.options[k] == ConvertValue(k, settings.entries[k]).value
  {
    ConvertAllValues(settings, settings.keys, ConvertValue);
    var opts := ConvertAll(settings, settings.keys, ConvertValue);
    if opts.Err? then Err(opts.error)
    else Ok(ThemeSpec(ThemeName(settings, toString), opts.value))
  }
}
