/**
 * Colour-theme merging for the UI framework: the user's light and dark
 * palettes are completed from defaults, contrast colours and fixed semantic
 * colours, and wrapped into the theme object the framework expects.
 *
 * A palette is a plain object from colour names to colour values; a colour
 * value is a string, or an object whose `base` property is the colour. The
 * luminance test of the colour utility is a parameter (`checkLuminance`),
 * true for a dark colour that needs a light contrast colour.
 */
module ColorTheme {
  import opened JsValues

  type Palette = map<string, JsValue>

  datatype ThemePair = ThemePair(light: Palette, dark: Palette)

  const LightWhite: string := "#ffffff"
  const LightError: string := "#FF5252"
  const LightInfo: string := "#2196F3"
  const LightSuccess: string := "#4CAF50"
  const LightWarning: string := "#FFC107"
  const LightBlack: string := "#000000"
  const DarkWhite: string := "#ffffff"
  const DarkError: string := "#FF5252"
  const DarkInfo: string := "#2196F3"
  const DarkSuccess: string := "#4CAF50"
  const DarkWarning: string := "#FFC107"
  const DarkBlack: string := "#272727"

  /** The application's built-in themes. */
  const DefaultThemes: ThemePair := ThemePair(
    map[
      "primary" := Str("#af2622"),
      "on-primary" := Str("#ffffff"),
      "secondary" := Str("#af2622"),
      "on-secondary" := Str("#ffffff"),
      "anchor" := Str("#af2622"),
      "error" := Str("#ff6f00")],
    map[
      "primary" := Str("#272727"),
      "on-primary" := Str("#ffffff"),
      "secondary" := Str("#ea9b9b"),
      "on-secondary" := Str("#272727"),
      "anchor" := Str("#ea9b9b"),
      "error" := Str("#ff6f00")])

  /** The colour names every merged palette defines itself. */
  const ComputedKeys: set<string> := {
    "primary", "secondary", "accent", "anchor", "on-primary", "on-secondary",
    "info", "success", "warning", "error"}

  /**
   * Names that `name in obj` finds on every plain object through
   * Object.prototype; a custom colour with one of these names is never copied.
   */
  const PrototypeMembers: set<string> := {
    "constructor", "hasOwnProperty", "isPrototypeOf", "propertyIsEnumerable",
    "toLocaleString", "toString", "valueOf", "__proto__",
    "__defineGetter__", "__defineSetter__", "__lookupGetter__", "__lookupSetter__"}

  /** `getBaseColor`: an object colour stands for its `base` property. */
  function BaseColor(color: JsValue): JsValue
    requires color != Null
  {
    match color
    case Obj(props) => Get(props, "base")
    case _ => color
  }

  /** `contrastColor`: the light colour for a dark colour, the dark colour otherwise. */
  function ContrastColor(color: JsValue, light: string, dark: string,
                         checkLuminance: JsValue -> bool): (r: JsValue)
    requires color != Null
    ensures r == Str(light) || r == Str(dark)
    ensures color.Obj? ==> (r == Str(light) <==> checkLuminance(Get(color.props, "base")) || light == dark)
    ensures !color.Obj? ==> (r == Str(light) <==> checkLuminance(color) || light == dark)
  {
    if checkLuminance(BaseColor(color)) then Str(light) else Str(dark)
  }

  /** `p[k] ? p[k] : fallback` */
  function OrElse(p: Palette, k: string, fallback: JsValue): (r: JsValue)
    ensures Truthy(Get(p, k)) ==> r == p[k]
    ensures !Truthy(Get(p, k)) ==> r == fallback
  {
    if Truthy(Get(p, k)) then p[k] else fallback
  }

  /** Whether a configured theme value is an object with a truthy `key`. */
  predicate ConfiguredWith(theme: JsValue, key: string)
  {
    Truthy(theme) && Truthy(PropOf(theme, key))
  }

  /** Defaults the merge relies on: a truthy light primary and a truthy dark secondary. */
  predicate UsableDefaults(defaults: ThemePair)
  {
    Truthy(Get(defaults.light, "primary")) && Truthy(Get(defaults.dark, "secondary"))
  }

  lemma DefaultThemesUsable()
    ensures UsableDefaults(DefaultThemes)
  {
  }

  /** The light palette the merge reads: the user's, or the whole default one. */
  function LightSource(input: map<string, JsValue>, defaults: ThemePair): (src: Palette)
    requires UsableDefaults(defaults)
    ensures Truthy(Get(src, "primary"))
    ensures ConfiguredWith(Get(input, "light"), "primary") ==> src == Get(input, "light").props
    ensures !ConfiguredWith(Get(input, "light"), "primary") ==> src == defaults.light
  {
    var light := Get(input, "light");
    if ConfiguredWith(light, "primary") then light.props else defaults.light
  }

  /** The dark palette the merge reads: the user's, or the whole default one. */
  function DarkSource(input: map<string, JsValue>, defaults: ThemePair): (src: Palette)
    requires UsableDefaults(defaults)
    ensures Truthy(Get(src, "secondary"))
    ensures ConfiguredWith(Get(input, "dark"), "secondary") ==> src == Get(input, "dark").props
    ensures !ConfiguredWith(Get(input, "dark"), "secondary") ==> src == defaults.dark
  {
    var dark := Get(input, "dark");
    if ConfiguredWith(dark, "secondary") then dark.props else defaults.dark
  }

  /** The ten computed light colours. */
  function ComputedLight(light: Palette, checkLuminance: JsValue -> bool): (m: Palette)
    requires Truthy(Get(light, "primary"))
    ensures m.Keys == ComputedKeys
  {
    var primary := light["primary"];
    var secondary := OrElse(light, "secondary", primary);
    map[
      "primary" := primary,
      "secondary" := secondary,
      "accent" := ContrastColor(primary, LightWhite, LightBlack, checkLuminance),
      "anchor" := secondary,
      "on-primary" := OrElse(light, "on-primary", ContrastColor(primary, LightWhite, LightBlack, checkLuminance)),
      "on-secondary" := OrElse(light, "on-secondary", ContrastColor(secondary, LightWhite, LightBlack, checkLuminance)),
      "info" := OrElse(light, "info", Str(LightInfo)),
      "success" := OrElse(light, "success", Str(LightSuccess)),
      "warning" := OrElse(light, "warning", Str(LightWarning)),
      "error" := OrElse(light, "error", Str(LightError))]
  }

  /** The ten computed dark colours. */
  function ComputedDark(dark: Palette, checkLuminance: JsValue -> bool): (m: Palette)
    requires Truthy(Get(dark, "secondary"))
    ensures m.Keys == ComputedKeys
  {
    var secondary := dark["secondary"];
    map[
      "primary" := Str(DarkBlack),
      "secondary" := secondary,
      "anchor" := secondary,
      "accent" := secondary,
      "on-primary" := Str(DarkWhite),
      "on-secondary" := OrElse(dark, "on-secondary", ContrastColor(secondary, DarkWhite, DarkBlack, checkLuminance)),
      "info" := OrElse(dark, "info", Str(DarkInfo)),
      "success" := OrElse(dark, "success", Str(DarkSuccess)),
      "warning" := OrElse(dark, "warning", Str(DarkWarning)),
      "error" := OrElse(dark, "error", Str(DarkError))]
  }

  /** How the six light theme colours are derived from the primary and the secondary. */
  lemma LightThemeColours(light: Palette, checkLuminance: JsValue -> bool)
    requires Truthy(Get(light, "primary"))
    ensures var m := ComputedLight(light, checkLuminance);
      && m["primary"] == light["primary"]
      && m["secondary"] == OrElse(light, "secondary", light["primary"])
      && m["accent"] == ContrastColor(light["primary"], LightWhite, LightBlack, checkLuminance)
      && m["anchor"] == m["secondary"]
      && m["on-primary"] == OrElse(light, "on-primary", m["accent"])
      && m["on-secondary"] == OrElse(light, "on-secondary", ContrastColor(m["secondary"], LightWhite, LightBlack, checkLuminance))
  {
  }

  /** The light semantic colours fall back to the fixed light defaults. */
  lemma LightSemanticColours(light: Palette, checkLuminance: JsValue -> bool)
    requires Truthy(Get(light, "primary"))
    ensures var m := ComputedLight(light, checkLuminance);
      && m["info"] == OrElse(light, "info", Str(LightInfo))
      && m["success"] == OrElse(light, "success", Str(LightSuccess))
      && m["warning"] == OrElse(light, "warning", Str(LightWarning))
      && m["error"] == OrElse(light, "error", Str(LightError))
  {
  }

  /** The six dark theme colours: fixed primary and on-primary, the rest from the secondary. */
  lemma DarkThemeColours(dark: Palette, checkLuminance: JsValue -> bool)
    requires Truthy(Get(dark, "secondary"))
    ensures var m := ComputedDark(dark, checkLuminance);
      && m["primary"] == Str(DarkBlack)
      && m["secondary"] == dark["secondary"]
      && m["anchor"] == m["secondary"]
      && m["accent"] == m["secondary"]
      && m["on-primary"] == Str(DarkWhite)
      && m["on-secondary"] == OrElse(dark, "on-secondary", ContrastColor(m["secondary"], DarkWhite, DarkBlack, checkLuminance))
  {
  }

  /** The dark semantic colours fall back to the fixed dark defaults. */
  lemma DarkSemanticColours(dark: Palette, checkLuminance: JsValue -> bool)
    requires Truthy(Get(dark, "secondary"))
    ensures var m := ComputedDark(dark, checkLuminance);
      && m["info"] == OrElse(dark, "info", Str(DarkInfo))
      && m["success"] == OrElse(dark, "success", Str(DarkSuccess))
      && m["warning"] == OrElse(dark, "warning", Str(DarkWarning))
      && m["error"] == OrElse(dark, "error", Str(DarkError))
  {
  }

  /**
   * The custom-key pass: every property of the source that `in` does not
   * already find on the merged palette is copied over.
   */
  function WithCustomKeys(merged: Palette, source: Palette): (r: Palette)
    ensures r.Keys == merged.Keys + (source.Keys - PrototypeMembers)
    ensures forall k :: k in merged ==> r[k] == merged[k]
    ensures forall k :: k in source && k !in merged && k !in PrototypeMembers ==> r[k] == source[k]
  {
    map k | k in merged.Keys + (source.Keys - PrototypeMembers) ::
      if k in merged then merged[k] else source[k]
  }

  /** The result of `mergeThemes(input, defaults)`. */
  function Merge(input: map<string, JsValue>, defaults: ThemePair,
                 checkLuminance: JsValue -> bool): ThemePair
    requires UsableDefaults(defaults)
  {
    var light := LightSource(input, defaults);
    var dark := DarkSource(input, defaults);
    ThemePair(
      WithCustomKeys(ComputedLight(light, checkLuminance), light),
      WithCustomKeys(ComputedDark(dark, checkLuminance), dark))
  }

  /** The for-in loop that copies custom keys, one property at a time. */
  method CopyCustomKeys(merged: Palette, source: Palette) returns (r: Palette)
    ensures r == WithCustomKeys(merged, source)
  {
    r := merged;
    var todo := source.Keys;
    while todo != {}
      invariant todo <= source.Keys
      invariant r.Keys == merged.Keys + ((source.Keys - todo) - PrototypeMembers)
      invariant forall k :: k in r ==> r[k] == if k in merged then merged[k] else source[k]
      decreases |todo|
    {
      var themeProp :| themeProp in todo;
      var hasProp := themeProp in r || themeProp in PrototypeMembers;
      if !hasProp {
        r := r[themeProp := source[themeProp]];
      }
      todo := todo - {themeProp};
    }
  }

  /** `mergeThemes`: picks the light and dark sources and fills fresh palettes from them. */
  method MergeThemes(input: map<string, JsValue>, defaults: ThemePair,
                     checkLuminance: JsValue -> bool) returns (merged: ThemePair)
    requires UsableDefaults(defaults)
    ensures merged == Merge(input, defaults, checkLuminance)
  {
    var light := Get(input, "light");
    var dark := Get(input, "dark");

    var lsrc: Palette;
    if !Truthy(light) || !Truthy(PropOf(light, "primary")) {
      lsrc := defaults.light;
    } else {
      lsrc := light.props;
    }
    var ml := MergeLight(lsrc, checkLuminance);

    var dsrc: Palette;
    if !Truthy(dark) || !Truthy(PropOf(dark, "secondary")) {
      dsrc := defaults.dark;
    } else {
      dsrc := dark.props;
    }
    var md := MergeDark(dsrc, checkLuminance);

    merged := ThemePair(ml, md);
  }

  /** The light half of `mergeThemes`, field by field, then the custom keys. */
  method MergeLight(lsrc: Palette, checkLuminance: JsValue -> bool) returns (ml: Palette)
    requires Truthy(Get(lsrc, "primary"))
    ensures ml == WithCustomKeys(ComputedLight(lsrc, checkLuminance), lsrc)
  {
    ml := map[];
    ml := ml["primary" := lsrc["primary"]];
    ml := ml["secondary" := if Truthy(Get(lsrc, "secondary")) then lsrc["secondary"] else lsrc["primary"]];
    ml := ml["accent" := ContrastColor(ml["primary"], LightWhite, LightBlack, checkLuminance)];
    ml := ml["anchor" := ml["secondary"]];
    ml := ml["on-primary" := if Truthy(Get(lsrc, "on-primary")) then lsrc["on-primary"]
                             else ContrastColor(ml["primary"], LightWhite, LightBlack, checkLuminance)];
    ml := ml["on-secondary" := if Truthy(Get(lsrc, "on-secondary")) then lsrc["on-secondary"]
                               else ContrastColor(ml["secondary"], LightWhite, LightBlack, checkLuminance)];
    ml := ml["info" := if Truthy(Get(lsrc, "info")) then lsrc["info"] else Str(LightInfo)];
    ml := ml["success" := if Truthy(Get(lsrc, "success")) then lsrc["success"] else Str(LightSuccess)];
    ml := ml["warning" := if Truthy(Get(lsrc, "warning")) then lsrc["warning"] else Str(LightWarning)];
    ml := ml["error" := if Truthy(Get(lsrc, "error")) then lsrc["error"] else Str(LightError)];
    ml := CopyCustomKeys(ml, lsrc);
  }

  /** The dark half of `mergeThemes`, field by field, then the custom keys. */
  method MergeDark(dsrc: Palette, checkLuminance: JsValue -> bool) returns (md: Palette)
    requires Truthy(Get(dsrc, "secondary"))
    ensures md == WithCustomKeys(ComputedDark(dsrc, checkLuminance), dsrc)
  {
    md := map[];
    md := md["primary" := Str(DarkBlack)];
    md := md["secondary" := dsrc["secondary"]];
    md := md["anchor" := md["secondary"]];
    md := md["accent" := dsrc["secondary"]];
    md := md["on-primary" := Str(DarkWhite)];
    md := md["on-secondary" := if Truthy(Get(dsrc, "on-secondary")) then dsrc["on-secondary"]
                               else ContrastColor(md["secondary"], DarkWhite, DarkBlack, checkLuminance)];
    md := md["info" := if Truthy(Get(dsrc, "info")) then dsrc["info"] else Str(DarkInfo)];
    md := md["success" := if Truthy(Get(dsrc, "success")) then dsrc["success"] else Str(DarkSuccess)];
    md := md["warning" := if Truthy(Get(dsrc, "warning")) then dsrc["warning"] else Str(DarkWarning)];
    md := md["error" := if Truthy(Get(dsrc, "error")) then dsrc["error"] else Str(DarkError)];
    md := CopyCustomKeys(md, dsrc);
  }

  /** Fixed fallbacks of the four semantic colours (the same for light and dark). */
  const SemanticDefaults: map<string, string> := map[
    "info" := LightInfo, "success" := LightSuccess, "warning" := LightWarning, "error" := LightError]

  lemma SemanticDefaultsAgree()
    ensures SemanticDefaults == map[
      "info" := DarkInfo, "success" := DarkSuccess, "warning" := DarkWarning, "error" := DarkError]
  {
  }

  /**
   * Without a light palette that has a truthy primary colour, the merged
   * light palette is the one built from the defaults alone, whatever else
   * the light input holds; likewise for dark and its secondary colour.
   */
  lemma FallbackToDefaults(input: map<string, JsValue>, defaults: ThemePair,
                           checkLuminance: JsValue -> bool)
    requires UsableDefaults(defaults)
    ensures !ConfiguredWith(Get(input, "light"), "primary") ==>
      Merge(input, defaults, checkLuminance).light == Merge(map[], defaults, checkLuminance).light
    ensures !ConfiguredWith(Get(input, "dark"), "secondary") ==>
      Merge(input, defaults, checkLuminance).dark == Merge(map[], defaults, checkLuminance).dark
  {
    assert LightSource(map[], defaults) == defaults.light;
    assert DarkSource(map[], defaults) == defaults.dark;
  }

  /** How the light primary, secondary, anchor, accent and on-colours are chosen. */
  lemma MergedLightColors(input: map<string, JsValue>, defaults: ThemePair,
                          checkLuminance: JsValue -> bool)
    requires UsableDefaults(defaults)
    ensures var src := LightSource(input, defaults);
            var r := Merge(input, defaults, checkLuminance).light;
            && ComputedKeys <= r.Keys
            && (ConfiguredWith(Get(input, "light"), "primary") ==>
                  r["primary"] == PropOf(Get(input, "light"), "primary"))
            && r["primary"] == src["primary"]
            && (Truthy(Get(src, "secondary")) ==> r["secondary"] == src["secondary"])
            && (!Truthy(Get(src, "secondary")) ==> r["secondary"] == r["primary"])
            && r["anchor"] == r["secondary"]
            && (r["accent"] == Str("#ffffff") || r["accent"] == Str("#000000"))
            && (r["accent"] == Str("#ffffff") <==> checkLuminance(BaseColor(r["primary"])))
            && (Truthy(Get(src, "on-primary")) ==> r["on-primary"] == src["on-primary"])
            && (!Truthy(Get(src, "on-primary")) ==> r["on-primary"] == r["accent"])
            && (Truthy(Get(src, "on-secondary")) ==> r["on-secondary"] == src["on-secondary"])
            && (!Truthy(Get(src, "on-secondary")) ==>
                  r["on-secondary"] == ContrastColor(r["secondary"], "#ffffff", "#000000", checkLuminance))
  {
    var src := LightSource(input, defaults);
    var c := ComputedLight(src, checkLuminance);
    var r := Merge(input, defaults, checkLuminance).light;
    assert r == WithCustomKeys(c, src);
    LightThemeColours(src, checkLuminance);
    forall k | k in ComputedKeys ensures k in r && r[k] == c[k] { }
  }

  /**
   * The dark primary and on-primary are fixed whatever the input; anchor and
   * accent both repeat the dark secondary.
   */
  lemma MergedDarkColors(input: map<string, JsValue>, defaults: ThemePair,
                         checkLuminance: JsValue -> bool)
    requires UsableDefaults(defaults)
    ensures var src := DarkSource(input, defaults);
            var r := Merge(input, defaults, checkLuminance).dark;
            && ComputedKeys <= r.Keys
            && r["primary"] == Str("#272727")
            && r["on-primary"] == Str("#ffffff")
            && (ConfiguredWith(Get(input, "dark"), "secondary") ==>
                  r["secondary"] == PropOf(Get(input, "dark"), "secondary"))
            && r["secondary"] == src["secondary"]
            && r["anchor"] == r["secondary"] && r["accent"] == r["secondary"]
            && (Truthy(Get(src, "on-secondary")) ==> r["on-secondary"] == src["on-secondary"])
            && (!Truthy(Get(src, "on-secondary")) ==>
                  r["on-secondary"] == ContrastColor(r["secondary"], "#ffffff", "#272727", checkLuminance))
  {
    var src := DarkSource(input, defaults);
    var c := ComputedDark(src, checkLuminance);
    var r := Merge(input, defaults, checkLuminance).dark;
    assert r == WithCustomKeys(c, src);
    DarkThemeColours(src, checkLuminance);
    forall k | k in ComputedKeys ensures k in r && r[k] == c[k] { }
  }

  /** info, success, warning and error: the user's colour when truthy, else the fixed default. */
  lemma MergedSemanticColors(input: map<string, JsValue>, defaults: ThemePair,
                             checkLuminance: JsValue -> bool)
    requires UsableDefaults(defaults)
    ensures var m := Merge(input, defaults, checkLuminance);
            var ls := LightSource(input, defaults);
            var ds := DarkSource(input, defaults);
            forall k | k in SemanticDefaults ::
              && k in m.light && k in m.dark
              && m.light[k] == (if Truthy(Get(ls, k)) then ls[k] else Str(SemanticDefaults[k]))
              && m.dark[k] == (if Truthy(Get(ds, k)) then ds[k] else Str(SemanticDefaults[k]))
  {
    var m := Merge(input, defaults, checkLuminance);
    var ls := LightSource(input, defaults);
    var ds := DarkSource(input, defaults);
    var cl := ComputedLight(ls, checkLuminance);
    var cd := ComputedDark(ds, checkLuminance);
    assert m.light == WithCustomKeys(cl, ls);
    assert m.dark == WithCustomKeys(cd, ds);
    LightSemanticTable(ls, checkLuminance);
    DarkSemanticTable(ds, checkLuminance);
    assert SemanticDefaults.Keys <= ComputedKeys;
  }

  /** The four light semantic colours, read through the table of fixed defaults. */
  lemma LightSemanticTable(light: Palette, checkLuminance: JsValue -> bool)
    requires Truthy(Get(light, "primary"))
    ensures forall k | k in SemanticDefaults ::
      ComputedLight(light, checkLuminance)[k] == OrElse(light, k, Str(SemanticDefaults[k]))
  {
    LightSemanticColours(light, checkLuminance);
    forall k | k in SemanticDefaults
      ensures ComputedLight(light, checkLuminance)[k] == OrElse(light, k, Str(SemanticDefaults[k]))
    {
      assert k == "info" || k == "success" || k == "warning" || k == "error";
    }
  }

  /** The four dark semantic colours, read through the same table. */
  lemma DarkSemanticTable(dark: Palette, checkLuminance: JsValue -> bool)
    requires Truthy(Get(dark, "secondary"))
    ensures forall k | k in SemanticDefaults ::
      ComputedDark(dark, checkLuminance)[k] == OrElse(dark, k, Str(SemanticDefaults[k]))
  {
    DarkSemanticColours(dark, checkLuminance);
    forall k | k in SemanticDefaults
      ensures ComputedDark(dark, checkLuminance)[k] == OrElse(dark, k, Str(SemanticDefaults[k]))
    {
      assert k == "info" || k == "success" || k == "warning" || k == "error";
    }
  }

  /**
   * Custom colours: the merged palette holds the computed names and every
   * name of the source palette that is not an Object.prototype member;
   * computed colours are never overwritten, custom ones are copied verbatim.
   */
  lemma MergedCustomKeys(input: map<string, JsValue>, defaults: ThemePair,
                         checkLuminance: JsValue -> bool)
    requires UsableDefaults(defaults)
    ensures var m := Merge(input, defaults, checkLuminance);
            var ls := LightSource(input, defaults);
            var ds := DarkSource(input, defaults);
            && m.light.Keys == ComputedKeys + (ls.Keys - PrototypeMembers)
            && m.dark.Keys == ComputedKeys + (ds.Keys - PrototypeMembers)
            && (forall k | k in ComputedKeys ::
                  m.light[k] == ComputedLight(ls, checkLuminance)[k]
                  && m.dark[k] == ComputedDark(ds, checkLuminance)[k])
            && (forall k | k in ls && k !in ComputedKeys && k !in PrototypeMembers :: m.light[k] == ls[k])
            && (forall k | k in ds && k !in ComputedKeys && k !in PrototypeMembers :: m.dark[k] == ds[k])
  {
  }

  /** A custom colour named like an Object.prototype member is dropped. */
  lemma PrototypeNamesDropped(input: map<string, JsValue>, defaults: ThemePair,
                              checkLuminance: JsValue -> bool)
    requires UsableDefaults(defaults)
    ensures var m := Merge(input, defaults, checkLuminance);
            forall k | k in PrototypeMembers :: k !in m.light && k !in m.dark
  {
    var m := Merge(input, defaults, checkLuminance);
    var ls := LightSource(input, defaults);
    var ds := DarkSource(input, defaults);
    assert m.light.Keys == ComputedKeys + (ls.Keys - PrototypeMembers);
    assert m.dark.Keys == ComputedKeys + (ds.Keys - PrototypeMembers);
    ComputedKeysAreOwn();
  }

  lemma ComputedKeysAreOwn()
    ensures ComputedKeys !! PrototypeMembers
  {
  }

  /** Every computed colour of both merged palettes is truthy (a usable colour value). */
  lemma ComputedColorsTruthy(input: map<string, JsValue>, defaults: ThemePair,
                             checkLuminance: JsValue -> bool)
    requires UsableDefaults(defaults)
    ensures var m := Merge(input, defaults, checkLuminance);
            forall k | k in ComputedKeys :: k in m.light && Truthy(m.light[k]) && k in m.dark && Truthy(m.dark[k])
  {
    var m := Merge(input, defaults, checkLuminance);
    var ls := LightSource(input, defaults);
    var ds := DarkSource(input, defaults);
    var cl := ComputedLight(ls, checkLuminance);
    var cd := ComputedDark(ds, checkLuminance);
    assert m.light == WithCustomKeys(cl, ls);
    assert m.dark == WithCustomKeys(cd, ds);
    ComputedLightTruthy(ls, checkLuminance);
    ComputedDarkTruthy(ds, checkLuminance);
  }

  lemma ComputedLightTruthy(light: Palette, checkLuminance: JsValue -> bool)
    requires Truthy(Get(light, "primary"))
    ensures forall k | k in ComputedKeys :: Truthy(ComputedLight(light, checkLuminance)[k])
  {
    var c := ComputedLight(light, checkLuminance);
    LightThemeColours(light, checkLuminance);
    LightSemanticColours(light, checkLuminance);
    assert Truthy(c["primary"]) && Truthy(c["secondary"]) && Truthy(c["anchor"]);
    assert Truthy(c["accent"]) && Truthy(c["on-primary"]) && Truthy(c["on-secondary"]);
    assert Truthy(c["info"]) && Truthy(c["success"]) && Truthy(c["warning"]) && Truthy(c["error"]);
  }

  lemma ComputedDarkTruthy(dark: Palette, checkLuminance: JsValue -> bool)
    requires Truthy(Get(dark, "secondary"))
    ensures forall k | k in ComputedKeys :: Truthy(ComputedDark(dark, checkLuminance)[k])
  {
    var c := ComputedDark(dark, checkLuminance);
    DarkThemeColours(dark, checkLuminance);
    DarkSemanticColours(dark, checkLuminance);
    assert Truthy(c["primary"]) && Truthy(c["secondary"]) && Truthy(c["anchor"]);
    assert Truthy(c["accent"]) && Truthy(c["on-primary"]) && Truthy(c["on-secondary"]);
    assert Truthy(c["info"]) && Truthy(c["success"]) && Truthy(c["warning"]) && Truthy(c["error"]);
  }

  datatype ThemeEntry = ThemeEntry(dark: bool, colors: Palette)

  datatype Variations = Variations(colors: set<string>, lighten: nat, darken: nat)

  /** The theme object handed to the UI framework. */
  datatype ThemeConfig = ThemeConfig(
    defaultTheme: string,
    light: ThemeEntry,
    dark: ThemeEntry,
    variations: Variations)

  /** `buildTheme`: the merged palettes wrapped for the UI framework. */
  function BuildTheme(inputConfig: JsValue, checkLuminance: JsValue -> bool): (out: ThemeConfig)
    ensures out.defaultTheme == "dark" || out.defaultTheme == "light"
    ensures out.defaultTheme == "dark" <==>
      inputConfig.Obj? && Truthy(Get(inputConfig.props, "dark"))
    ensures !out.light.dark && out.dark.dark
    ensures inputConfig.Obj? && Get(inputConfig.props, "themes").Obj? ==>
      var m := Merge(Get(inputConfig.props, "themes").props, DefaultThemes, checkLuminance);
      out.light.colors == m.light && out.dark.colors == m.dark
    ensures !inputConfig.Obj? || !Get(inputConfig.props, "themes").Obj? ==>
      var m := Merge(map[], DefaultThemes, checkLuminance);
      out.light.colors == m.light && out.dark.colors == m.dark
    ensures out.variations.colors == out.light.colors.Keys + out.dark.colors.Keys
    ensures out.variations.lighten == 5 && out.variations.darken == 4
  {
    var config := if inputConfig.Obj? then inputConfig.props else map["defaultTheme" := Str("light")];
    var config := if Get(config, "themes").Obj? then config else config["themes" := Obj(map[])];
    var themes := Get(config, "themes").props;
    assert inputConfig.Obj? && Get(inputConfig.props, "themes").Obj? ==>
      themes == Get(inputConfig.props, "themes").props;
    assert !inputConfig.Obj? || !Get(inputConfig.props, "themes").Obj? ==> themes == map[];
    var merged := Merge(themes, DefaultThemes, checkLuminance);
    ThemeConfig(
      if Truthy(Get(config, "dark")) then "dark" else "light",
      ThemeEntry(false, merged.light),
      ThemeEntry(true, merged.dark),
      Variations(merged.light.Keys + merged.dark.Keys, 5, 4))
  }

  /**
   * Without a configuration object, or without a themes object in it, the
   * light theme is the default one and the variations cover exactly the ten
   * computed colour names; the default error colour wins over the fixed one.
   */
  lemma {:induction false} BuildThemeWithoutThemes(inputConfig: JsValue, checkLuminance: JsValue -> bool)
    requires !inputConfig.Obj? || !Get(inputConfig.props, "themes").Obj?
    ensures var out := BuildTheme(inputConfig, checkLuminance);
            && out.variations.colors == ComputedKeys
            && out.light.colors["primary"] == Str("#af2622")
            && out.light.colors["error"] == Str("#ff6f00")
            && out.dark.colors["secondary"] == Str("#ea9b9b")
            && out.dark.colors["on-secondary"] == Str("#272727")
  {
    DefaultMergeKeys(checkLuminance);
    DefaultMergeColours(checkLuminance);
  }

  /** The merge of the defaults alone has exactly the ten computed colour names. */
  lemma DefaultMergeKeys(checkLuminance: JsValue -> bool)
    ensures var m := Merge(map[], DefaultThemes, checkLuminance);
            m.light.Keys == ComputedKeys && m.dark.Keys == ComputedKeys
  {
    var ls, ds := DefaultThemes.light, DefaultThemes.dark;
    assert LightSource(map[], DefaultThemes) == ls;
    assert DarkSource(map[], DefaultThemes) == ds;
    DefaultThemeEntries();
    NoNewCustomKeys(ComputedLight(ls, checkLuminance), ls);
    NoNewCustomKeys(ComputedDark(ds, checkLuminance), ds);
  }

  /** A source whose names the merged palette already has adds no name. */
  lemma NoNewCustomKeys(merged: Palette, source: Palette)
    requires source.Keys <= merged.Keys
    ensures WithCustomKeys(merged, source).Keys == merged.Keys
  {
  }

  /** Colours of the merge of the defaults alone. */
  lemma DefaultMergeColours(checkLuminance: JsValue -> bool)
    ensures var m := Merge(map[], DefaultThemes, checkLuminance);
            && "primary" in m.light && m.light["primary"] == Str("#af2622")
            && "error" in m.light && m.light["error"] == Str("#ff6f00")
            && "secondary" in m.dark && m.dark["secondary"] == Str("#ea9b9b")
            && "on-secondary" in m.dark && m.dark["on-secondary"] == Str("#272727")
  {
    var ls, ds := DefaultThemes.light, DefaultThemes.dark;
    assert LightSource(map[], DefaultThemes) == ls;
    assert DarkSource(map[], DefaultThemes) == ds;
    DefaultThemeEntries();
    LightThemeColours(ls, checkLuminance);
    LightSemanticColours(ls, checkLuminance);
    DarkThemeColours(ds, checkLuminance);
  }

  lemma DefaultThemeEntries()
    ensures DefaultThemes.light.Keys <= ComputedKeys
    ensures DefaultThemes.dark.Keys <= ComputedKeys
    ensures DefaultThemes.light["primary"] == Str("#af2622")
    ensures Truthy(Get(DefaultThemes.light, "error")) && DefaultThemes.light["error"] == Str("#ff6f00")
    ensures DefaultThemes.dark["secondary"] == Str("#ea9b9b")
    ensures Truthy(Get(DefaultThemes.dark, "on-secondary")) && DefaultThemes.dark["on-secondary"] == Str("#272727")
  {
  }
}
