/** The font settings of `src/lib/font.ts`: a fixed base font, an override
    over it, and the four URL parameters `font-family`, `font-size`,
    `font-style` and `font-shadow`. */
module Font {
  import opened Js
  import opened JsValues
  import opened ValueEquality
  import opened SearchParams
  import opened SearchParamHelpers
  import IfMatch = AddToSearchParamIfMatch

  datatype FontConfig = FontConfig(family: string, size: string, style: string, shadow: string)

  datatype FontOverride = FontOverride(
    family: Nullable<string>,
    size: Nullable<string>,
    style: Nullable<string>,
    shadow: Nullable<string>)

  datatype FontField = Family | Size | Style | Shadow

  /** The URL key of each field; the same keys are read and written. */
  function FontKey(f: FontField): string {
    match f
    case Family => "font-family"
    case Size => "font-size"
    case Style => "font-style"
    case Shadow => "font-shadow"
  }

  lemma FontKeysDistinct(f: FontField, g: FontField)
    requires f != g
    ensures FontKey(f) != FontKey(g)
  {
    assert FontKey(f)[6] != FontKey(g)[6];
  }

  function BaseField(c: FontConfig, f: FontField): string {
    match f
    case Family => c.family
    case Size => c.size
    case Style => c.style
    case Shadow => c.shadow
  }

  function OverrideField(o: FontOverride, f: FontField): Nullable<string> {
    match f
    case Family => o.family
    case Size => o.size
    case Style => o.style
    case Shadow => o.shadow
  }

  datatype FontState = FontState(base: FontConfig, override: FontOverride) {
    /** `getFont()`: each field is the override's, or else the base's. */
    function GetFont(): (r: FontConfig)
      ensures forall f :: BaseField(r, f) == OverrideField(override, f).OrElse(BaseField(base, f))
    {
      var r := FontConfig(override.family.OrElse(base.family), override.size.OrElse(base.size),
                          override.style.OrElse(base.style), override.shadow.OrElse(base.shadow));
      assert forall f :: BaseField(r, f) == OverrideField(override, f).OrElse(BaseField(base, f));
      r
    }

    /** `setFontOverride(override)`: each field pinned to the given value,
        or else to the font as it currently reads. */
    function SetFontOverride(p: FontOverride): (r: FontState)
      ensures r.base == base
      ensures forall f :: OverrideField(r.override, f) == Val(OverrideField(p, f).OrElse(BaseField(GetFont(), f)))
    {
      var font := GetFont();
      var r := this.(override := FontOverride(
        Val(p.family.OrElse(font.family)), Val(p.size.OrElse(font.size)),
        Val(p.style.OrElse(font.style)), Val(p.shadow.OrElse(font.shadow))));
      assert forall f :: OverrideField(r.override, f) == Val(OverrideField(p, f).OrElse(BaseField(font, f)));
      r
    }

    /** `deconstructUrlParams(params)`: each field is the parameter when
        present, and the base otherwise. */
    function DeconstructUrlParams(params: map<string, string>): (r: FontState)
      ensures r.base == base
      ensures forall f :: OverrideField(r.override, f) == Val(if FontKey(f) in params then params[FontKey(f)] else BaseField(base, f))
    {
      var r := this.(override := FontOverride(
        Val(FromGet(Lookup(params, FontKey(Family))).OrElse(base.family)),
        Val(FromGet(Lookup(params, FontKey(Size))).OrElse(base.size)),
        Val(FromGet(Lookup(params, FontKey(Style))).OrElse(base.style)),
        Val(FromGet(Lookup(params, FontKey(Shadow))).OrElse(base.shadow))));
      assert forall f :: OverrideField(r.override, f) == Val(if FontKey(f) in params then params[FontKey(f)] else BaseField(base, f));
      r
    }

    /** `constructUrlParams()` as written: `addToSearchParamIfMatch` for each
        field, into fresh parameters. */
    function ConstructUrlParams(): map<string, string> {
      var e1 := IfMatch.WithIfEqual(map[], FontKey(Family), StrSlot(override.family), Str(base.family));
      var e2 := IfMatch.WithIfEqual(e1, FontKey(Size), StrSlot(override.size), Str(base.size));
      var e3 := IfMatch.WithIfEqual(e2, FontKey(Style), StrSlot(override.style), Str(base.style));
      IfMatch.WithIfEqual(e3, FontKey(Shadow), StrSlot(override.shadow), Str(base.shadow))
    }

    /** As evidently intended: `addIfNoMatch` with `[undefined, base]`, so
        that only fields changed away from the base are written. */
    function ConstructChangedParams(): map<string, string> {
      var e1 := WithIfNoMatch(map[], FontKey(Family), StrSlot(override.family), Arr([UndefinedValue, Str(base.family)]));
      var e2 := WithIfNoMatch(e1, FontKey(Size), StrSlot(override.size), Arr([UndefinedValue, Str(base.size)]));
      var e3 := WithIfNoMatch(e2, FontKey(Style), StrSlot(override.style), Arr([UndefinedValue, Str(base.style)]));
      WithIfNoMatch(e3, FontKey(Shadow), StrSlot(override.shadow), Arr([UndefinedValue, Str(base.shadow)]))
    }
  }

  /** `loadFont()`: Arial, 12, bold, no shadow, and nothing overridden. */
  function InitialFont(): (s: FontState)
    ensures s.GetFont() == s.base == FontConfig("Arial", "12", "bold", "none")
    ensures forall f :: OverrideField(s.override, f) == Undefined
  {
    FontState(FontConfig("Arial", "12", "bold", "none"), FontOverride(Undefined, Undefined, Undefined, Undefined))
  }

  /** After `setFontOverride` every field is pinned, and the font reads as
      the given fields over the font as it read before; after
      `deconstructUrlParams` no field is unset either. */
  lemma SetFontOverridePins(s: FontState, p: FontOverride, params: map<string, string>)
    ensures forall f :: OverrideField(s.SetFontOverride(p).override, f).Val?
    ensures forall f :: BaseField(s.SetFontOverride(p).GetFont(), f) == OverrideField(p, f).OrElse(BaseField(s.GetFont(), f))
    ensures forall f :: OverrideField(s.DeconstructUrlParams(params).override, f).Val?
  {
  }

  /** What the written parameters hold under a font key, as written. */
  lemma ConstructLookup(s: FontState, f: FontField)
    ensures var v := StrSlot(OverrideField(s.override, f));
      Lookup(s.ConstructUrlParams(), FontKey(f)) ==
        if ValueEquals(v, Str(BaseField(s.base, f))) then Some(ToText(v)) else None
  {
    forall g | g != f ensures FontKey(g) != FontKey(f) {
      FontKeysDistinct(g, f);
    }
  }

  /** As written, a field changed away from the base is never emitted, and
      a fresh font emits "undefined" for every field, which reads back as
      the family "undefined". */
  lemma ChangedFontIsLost(s: FontState, family: string)
    requires family != s.base.family
    ensures FontKey(Family) !in s.SetFontOverride(FontOverride(Val(family), Undefined, Undefined, Undefined)).ConstructUrlParams()
    ensures var loaded := InitialFont();
      loaded.DeconstructUrlParams(loaded.ConstructUrlParams()).GetFont().family == "undefined"
  {
    ConstructLookup(s.SetFontOverride(FontOverride(Val(family), Undefined, Undefined, Undefined)), Family);
    var loaded := InitialFont();
    ConstructLookup(loaded, Family);
  }

  lemma ConstructChangedLookup(s: FontState, f: FontField)
    ensures var o := OverrideField(s.override, f);
      Lookup(s.ConstructChangedParams(), FontKey(f)) ==
        if o.Val? && o.value != BaseField(s.base, f) then Some(o.value) else None
  {
    forall g | g != f ensures FontKey(g) != FontKey(f) {
      FontKeysDistinct(g, f);
    }
    var o := OverrideField(s.override, f);
    MatchesUnsetOrBase(StrSlot(o), Str(BaseField(s.base, f)));
  }

  /** The corrected writer round-trips: reading its parameters back gives
      the font as it read before. */
  lemma CorrectedFontRoundTrip(s: FontState)
    ensures s.DeconstructUrlParams(s.ConstructChangedParams()).GetFont() == s.GetFont()
  {
    var t := s.DeconstructUrlParams(s.ConstructChangedParams());
    forall f ensures BaseField(t.GetFont(), f) == BaseField(s.GetFont(), f) {
      ConstructChangedLookup(s, f);
    }
    assert BaseField(t.GetFont(), Family) == BaseField(s.GetFont(), Family);
    assert BaseField(t.GetFont(), Size) == BaseField(s.GetFont(), Size);
    assert BaseField(t.GetFont(), Style) == BaseField(s.GetFont(), Style);
    assert BaseField(t.GetFont(), Shadow) == BaseField(s.GetFont(), Shadow);
  }

  /** The module state of `src/lib/font.ts`, as `loadFont` leaves it. */
  class FontStore {
    var base: FontConfig
    var override: FontOverride

    function State(): FontState
      reads this
    {
      FontState(base, override)
    }

    constructor LoadFont()
      ensures State() == InitialFont()
    {
      base := FontConfig("Arial", "12", "bold", "none");
      override := FontOverride(Undefined, Undefined, Undefined, Undefined);
    }

    method DeconstructUrlParams(params: UrlSearchParams)
      modifies this
      ensures State() == old(State()).DeconstructUrlParams(params.entries)
    {
      var family := params.Get(FontKey(Family));
      var size := params.Get(FontKey(Size));
      var style := params.Get(FontKey(Style));
      var shadow := params.Get(FontKey(Shadow));
      override := FontOverride(
        Val(FromGet(family).OrElse(base.family)), Val(FromGet(size).OrElse(base.size)),
        Val(FromGet(style).OrElse(base.style)), Val(FromGet(shadow).OrElse(base.shadow)));
    }

    method ConstructUrlParams() returns (params: UrlSearchParams)
      ensures fresh(params) && params.entries == State().ConstructUrlParams()
    {
      params := new UrlSearchParams();
      IfMatch.AddToSearchParamIfMatch(params, FontKey(Family), StrSlot(override.family), Str(base.family));
      IfMatch.AddToSearchParamIfMatch(params, FontKey(Size), StrSlot(override.size), Str(base.size));
      IfMatch.AddToSearchParamIfMatch(params, FontKey(Style), StrSlot(override.style), Str(base.style));
      IfMatch.AddToSearchParamIfMatch(params, FontKey(Shadow), StrSlot(override.shadow), Str(base.shadow));
    }

    method SetFontOverride(p: FontOverride)
      modifies this
      ensures State() == old(State()).SetFontOverride(p)
    {
      var font := State().GetFont();
      override := FontOverride(
        Val(p.family.OrElse(font.family)), Val(p.size.OrElse(font.size)),
        Val(p.style.OrElse(font.style)), Val(p.shadow.OrElse(font.shadow)));
    }
  }
}
