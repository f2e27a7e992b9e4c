/**
 * The environment presets: a fixed table of six habitats, a lookup with a
 * grassland fallback that converts the six colour strings into colour
 * values, and the list of available types.
 *
 * Colours are `#rrggbb` strings; a converted colour is modelled as its three
 * sRGB bytes (the rendering library's division by 255 and colour-space
 * conversion are not modelled).
 */
module Environment {
  import opened Options
  import opened Geometry
  import opened JsObject

  datatype Preset = Preset(
    groundColor: string,
    groundRoughness: real,
    skyColor: string,
    fogColor: string,
    fogNear: real,
    fogFar: real,
    ambientLightIntensity: real,
    ambientLightColor: string,
    directionalLightIntensity: real,
    directionalLightColor: string,
    directionalLightPosition: Vec3,
    secondaryLightIntensity: real,
    secondaryLightColor: string,
    secondaryLightPosition: Vec3,
    environmentPreset: string)

  datatype Rgb = Rgb(r: int, g: int, b: int)

  /** A preset with its six colours converted. */
  datatype EnvironmentConfig = EnvironmentConfig(
    groundColor: Rgb,
    groundRoughness: real,
    skyColor: Rgb,
    fogColor: Rgb,
    fogNear: real,
    fogFar: real,
    ambientLightIntensity: real,
    ambientLightColor: Rgb,
    directionalLightIntensity: real,
    directionalLightColor: Rgb,
    directionalLightPosition: Vec3,
    secondaryLightIntensity: real,
    secondaryLightColor: Rgb,
    secondaryLightPosition: Vec3,
    environmentPreset: string)

  const Forest: Preset := Preset(
    "#2d5016", 0.9, "#87a8b0", "#4a6b5e", 5.0, 30.0, 0.4, "#ffffff", 0.8, "#fff8e1",
    Vec3(5.0, 8.0, 5.0), 0.2, "#b3e5fc", Vec3(-5.0, 3.0, -5.0), "forest")
  const Grassland: Preset := Preset(
    "#7cb342", 0.8, "#87ceeb", "#b0bec5", 10.0, 50.0, 0.5, "#ffffff", 1.0, "#fffde7",
    Vec3(5.0, 10.0, 5.0), 0.3, "#fff9c4", Vec3(-5.0, 3.0, -5.0), "sunset")
  const Savannah: Preset := Preset(
    "#d4a574", 0.7, "#ffb347", "#e8d5b7", 20.0, 100.0, 0.6, "#fff8e1", 1.2, "#ffeb3b",
    Vec3(5.0, 12.0, 5.0), 0.4, "#ffcc80", Vec3(-5.0, 4.0, -5.0), "sunset")
  const Snow: Preset := Preset(
    "#f0f0f0", 0.3, "#b3d9ff", "#e3f2fd", 3.0, 25.0, 0.5, "#e1f5fe", 0.9, "#e3f2fd",
    Vec3(5.0, 8.0, 5.0), 0.3, "#bbdefb", Vec3(-5.0, 3.0, -5.0), "city")
  const Farm: Preset := Preset(
    "#8d6e63", 0.85, "#90caf9", "#b0bec5", 8.0, 40.0, 0.45, "#ffffff", 0.95, "#fff9c4",
    Vec3(5.0, 9.0, 5.0), 0.25, "#fffde7", Vec3(-5.0, 3.0, -5.0), "sunset")
  const Desert: Preset := Preset(
    "#d7ccc8", 0.6, "#ffcc80", "#efebe9", 15.0, 80.0, 0.7, "#fff8e1", 1.3, "#ffd54f",
    Vec3(5.0, 15.0, 5.0), 0.5, "#ffcc80", Vec3(-5.0, 4.0, -5.0), "sunset")

  /** The table's keys, in declaration order. */
  const TypeNames: seq<string> := ["forest", "grassland", "savannah", "snow", "farm", "desert"]

  /** The table's own entry under `key`, if any. */
  function PresetOf(key: string): (p: Option<Preset>)
    ensures p.Some? <==> key in TypeNames
  {
    if key == "forest" then Some(Forest)
    else if key == "grassland" then Some(Grassland)
    else if key == "savannah" then Some(Savannah)
    else if key == "snow" then Some(Snow)
    else if key == "farm" then Some(Farm)
    else if key == "desert" then Some(Desert)
    else None
  }

  /** The available types: the table's keys, each once, in order. */
  function AvailableEnvironmentTypes(): (ts: seq<string>)
    ensures ts == ["forest", "grassland", "savannah", "snow", "farm", "desert"]
    ensures forall i, j :: 0 <= i < j < |ts| ==> ts[i] != ts[j]
    ensures forall k :: k in ts <==> PresetOf(k).Some?
  {
    TypeNames
  }

  // ---- colours ----

  function HexValue(c: char): (v: Option<int>)
    ensures v.Some? ==> 0 <= v.value < 16
  {
    if '0' <= c <= '9' then Some(c as int - '0' as int)
    else if 'a' <= c <= 'f' then Some(c as int - 'a' as int + 10)
    else if 'A' <= c <= 'F' then Some(c as int - 'A' as int + 10)
    else None
  }

  function HexByte(hi: char, lo: char): (v: Option<int>)
    ensures v.Some? ==> 0 <= v.value < 256
  {
    match (HexValue(hi), HexValue(lo))
    case (Some(h), Some(l)) => Some(16 * h + l)
    case _ => None
  }

  predicate IsHexChar(c: char) {
    '0' <= c <= '9' || 'a' <= c <= 'f' || 'A' <= c <= 'F'
  }

  /** A `#` followed by six hexadecimal digits. */
  predicate IsHexColor(s: string) {
    |s| == 7 && s[0] == '#' && IsHexChar(s[1]) && IsHexChar(s[2]) && IsHexChar(s[3])
    && IsHexChar(s[4]) && IsHexChar(s[5]) && IsHexChar(s[6])
  }

  /** The colour a `#rrggbb` string names; None for any other string. */
  function ParseHexColor(s: string): (c: Option<Rgb>)
    ensures c.Some? <==> IsHexColor(s)
    ensures c.Some? ==> 0 <= c.value.r < 256 && 0 <= c.value.g < 256 && 0 <= c.value.b < 256
  {
    if |s| != 7 || s[0] != '#' then None
    else
      match (HexByte(s[1], s[2]), HexByte(s[3], s[4]), HexByte(s[5], s[6]))
      case (Some(r), Some(g), Some(b)) => Some(Rgb(r, g, b))
      case _ => None
  }

  function HexDigit(v: int): char
    requires 0 <= v < 16
  {
    if v < 10 then ('0' as int + v) as char else ('a' as int + v - 10) as char
  }

  /** The lower-case `#rrggbb` spelling of a colour. */
  function FormatHexColor(c: Rgb): string
    requires 0 <= c.r < 256 && 0 <= c.g < 256 && 0 <= c.b < 256
  {
    ['#', HexDigit(c.r / 16), HexDigit(c.r % 16), HexDigit(c.g / 16), HexDigit(c.g % 16),
     HexDigit(c.b / 16), HexDigit(c.b % 16)]
  }

  lemma HexDigitRoundTrip(v: int)
    requires 0 <= v < 16
    ensures HexValue(HexDigit(v)) == Some(v)
  {
  }

  /** Parsing undoes formatting, so the colour strings name colours one to one. */
  lemma ParseFormatRoundTrip(c: Rgb)
    requires 0 <= c.r < 256 && 0 <= c.g < 256 && 0 <= c.b < 256
    ensures ParseHexColor(FormatHexColor(c)) == Some(c)
  {
    HexDigitRoundTrip(c.r / 16); HexDigitRoundTrip(c.r % 16);
    HexDigitRoundTrip(c.g / 16); HexDigitRoundTrip(c.g % 16);
    HexDigitRoundTrip(c.b / 16); HexDigitRoundTrip(c.b % 16);
  }

  /** The colour value made from a string; an unparsable string leaves the default white. */
  function ToColor(s: string): (c: Rgb)
    ensures ParseHexColor(s).Some? ==> c == ParseHexColor(s).value
  {
    ParseHexColor(s).GetOr(Rgb(255, 255, 255))
  }

  /** The spread of the preset with the six colour fields replaced by colour values. */
  function Convert(p: Preset): (c: EnvironmentConfig)
    ensures c.groundRoughness == p.groundRoughness
    ensures c.fogNear == p.fogNear && c.fogFar == p.fogFar
    ensures c.ambientLightIntensity == p.ambientLightIntensity
    ensures c.directionalLightIntensity == p.directionalLightIntensity
    ensures c.secondaryLightIntensity == p.secondaryLightIntensity
    ensures c.directionalLightPosition == p.directionalLightPosition
    ensures c.secondaryLightPosition == p.secondaryLightPosition
    ensures c.environmentPreset == p.environmentPreset
    ensures c.groundColor == ToColor(p.groundColor) && c.skyColor == ToColor(p.skyColor)
    ensures c.fogColor == ToColor(p.fogColor) && c.ambientLightColor == ToColor(p.ambientLightColor)
    ensures c.directionalLightColor == ToColor(p.directionalLightColor)
    ensures c.secondaryLightColor == ToColor(p.secondaryLightColor)
  {
    EnvironmentConfig(
      ToColor(p.groundColor), p.groundRoughness, ToColor(p.skyColor), ToColor(p.fogColor),
      p.fogNear, p.fogFar, p.ambientLightIntensity, ToColor(p.ambientLightColor),
      p.directionalLightIntensity, ToColor(p.directionalLightColor), p.directionalLightPosition,
      p.secondaryLightIntensity, ToColor(p.secondaryLightColor), p.secondaryLightPosition,
      p.environmentPreset)
  }

  /** The preset a type selects: its own table entry, else (missing or unknown) grassland. */
  function SelectPreset(environmentType: Option<string>): (p: Preset)
    ensures environmentType.Some? && PresetOf(environmentType.value).Some? ==>
              p == PresetOf(environmentType.value).value
    ensures environmentType.None? || environmentType.value !in AvailableEnvironmentTypes() ==>
              p == Grassland
  {
    var entry := if environmentType.Some? then PresetOf(environmentType.value) else None;
    entry.GetOr(Grassland)
  }

  /** The configuration for a type: its selected preset with the colours converted. */
  function GetEnvironmentConfig(environmentType: Option<string>): (c: EnvironmentConfig)
    ensures environmentType.Some? && PresetOf(environmentType.value).Some? ==>
              c == Convert(PresetOf(environmentType.value).value)
    ensures environmentType.None? || environmentType.value !in AvailableEnvironmentTypes() ==>
              c == Convert(Grassland)
  {
    Convert(SelectPreset(environmentType))
  }

  /** The renderer's own default ("grassland" for a missing type) agrees with the lookup's fallback. */
  lemma RendererDefaultAgrees()
    ensures GetEnvironmentConfig(Some("grassland")) == GetEnvironmentConfig(None)
  {
  }

  /** Every preset of the table has its fog start before its end and a roughness in [0, 1]. */
  lemma PresetsWellFormed(key: string)
    requires key in AvailableEnvironmentTypes()
    ensures var p := PresetOf(key).value;
      0.0 < p.fogNear < p.fogFar && 0.0 <= p.groundRoughness <= 1.0
  {
  }

  /** All six colour strings of a preset are `#rrggbb` literals. */
  predicate ColoursValid(p: Preset) {
    IsHexColor(p.groundColor) && IsHexColor(p.skyColor) && IsHexColor(p.fogColor)
    && IsHexColor(p.ambientLightColor) && IsHexColor(p.directionalLightColor)
    && IsHexColor(p.secondaryLightColor)
  }

  /** Every colour literal of the table parses, so no conversion falls back to white. */
  lemma TableColoursValid(key: string)
    requires key in AvailableEnvironmentTypes()
    ensures ColoursValid(PresetOf(key).value)
  {
    if key == "forest" { assert ColoursValid(Forest); }
    else if key == "grassland" { assert ColoursValid(Grassland); }
    else if key == "savannah" { assert ColoursValid(Savannah); }
    else if key == "snow" { assert ColoursValid(Snow); }
    else if key == "farm" { assert ColoursValid(Farm); }
    else { assert ColoursValid(Desert); }
  }

  // ---- the lookup as written ----

  /** What `environmentPresets[key] || environmentPresets.grassland` picks. */
  datatype Picked = OwnPreset(preset: Preset) | InheritedMember(name: string)

  function PickAsWritten(environmentType: Option<string>): (p: Picked)
    ensures environmentType.Some? && environmentType.value in InheritedNames ==>
              p == InheritedMember(environmentType.value)
  {
    match environmentType
    case None => OwnPreset(Grassland)
    case Some(k) =>
      if PresetOf(k).Some? then OwnPreset(PresetOf(k).value)
      else if k in InheritedNames then InheritedMember(k)
      else OwnPreset(Grassland)
  }

  /**
   * As written, a type named after an inherited member does not fall back:
   * the lookup returns an object without any preset field, not grassland.
   */
  lemma InheritedNameEscapesFallback()
    ensures PickAsWritten(Some("toString")) == InheritedMember("toString")
    ensures SelectPreset(Some("toString")) == Grassland
  {
  }
}
