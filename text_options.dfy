/** `TextRendererOptions`: the settings a text renderer draws with.  Every
    validating setter either stores its argument or throws and leaves the
    previous value in place. */
module TextOptions {
  import opened Errors
  import opened Argb
  import opened Platform

  /** A single-precision value as the `LineHeight` setter sees it: a finite
      number, or one of the three non-finite values. */
  datatype Single = Finite(value: real) | NaN | PositiveInfinity | NegativeInfinity

  /** A fill brush; `Brushes.White` is the solid opaque white brush. */
  datatype Brush = Solid(color: Color)

  const WhiteBrush := Solid(White)

  /** The check of the `LineHeight` setter: non-finite first, then negative. */
  function CheckLineHeight(value: Single): (r: Outcome)
    ensures r == Pass <==> value.Finite? && value.value >= 0.0
    ensures r != Pass ==> r == Fail(ArgumentOutOfRange("value"))
  {
    if value.NaN? || value.PositiveInfinity? || value.NegativeInfinity? then Fail(ArgumentOutOfRange("value"))
    else if value.value < 0.0 then Fail(ArgumentOutOfRange("value"))
    else Pass
  }

  /** The check of the `ShadowIndex` setter. */
  function CheckShadowIndex(value: int): (r: Outcome)
    ensures r == Pass <==> value >= 0
    ensures r != Pass ==> r == Fail(ArgumentOutOfRange("value"))
  {
    if value < 0 then Fail(ArgumentOutOfRange("value")) else Pass
  }

  /** The checks of the constructor taking a font: null font, then a
      negative line height. */
  function CheckFontArguments(font: Font?, lineHeight: int): (r: Outcome)
    ensures r == Pass <==> font != null && lineHeight >= 0
    ensures font == null ==> r == Fail(ArgumentNull("font"))
    ensures font != null && lineHeight < 0 ==> r == Fail(ArgumentOutOfRange("lineHeight"))
  {
    if font == null then Fail(ArgumentNull("font"))
    else if lineHeight < 0 then Fail(ArgumentOutOfRange("lineHeight"))
    else Pass
  }

  /** The checks of the constructor taking a family: null family, then a
      negative font size, then a negative line height. */
  function CheckFamilyArguments(family: FontFamily?, fontSize: int, lineHeight: int): (r: Outcome)
    ensures r == Pass <==> family != null && fontSize >= 0 && lineHeight >= 0
    ensures family == null ==> r == Fail(ArgumentNull("fontFamily"))
    ensures family != null && fontSize < 0 ==> r == Fail(ArgumentOutOfRange("fontSize"))
    ensures family != null && fontSize >= 0 && lineHeight < 0 ==> r == Fail(ArgumentOutOfRange("lineHeight"))
  {
    if family == null then Fail(ArgumentNull("fontFamily"))
    else if fontSize < 0 then Fail(ArgumentOutOfRange("fontSize"))
    else if lineHeight < 0 then Fail(ArgumentOutOfRange("lineHeight"))
    else Pass
  }

  class TextRendererOptions {
    var lineHeight: real
    var brushes: seq<Brush>
    var font: Font?
    var shadowIndex: int
    var format: StringFormat?
    var antialiasing: bool
    var drawShadow: bool

    /** Kept by every setter from construction on. */
    ghost predicate Valid()
      reads this
    {
      lineHeight >= 0.0 && shadowIndex >= 0 && font != null && format != null
    }

    /** Field setup shared by both constructors once the checks passed:
        the `LineHeight` setter, one white brush and a typographic,
        non-wrapping format. */
    constructor Init(font: Font, lineHeight: int)
      requires lineHeight >= 0
      ensures Valid() && this.font == font && this.lineHeight == lineHeight as real
      ensures brushes == [WhiteBrush] && shadowIndex == 0
      ensures fresh(format) && format.typographic && format.noWrap
      ensures !antialiasing && !drawShadow
    {
      this.font := font;
      shadowIndex := 0;
      antialiasing, drawShadow := false, false;
      this.lineHeight := 0.0;
      new;
      var _ := SetLineHeight(Finite(lineHeight as real));
      brushes := [WhiteBrush];
      format := new StringFormat(true, true);
    }

    /** `new TextRendererOptions(Font, int)`. */
    static method FromFont(font: Font?, lineHeight: int) returns (r: Result<TextRendererOptions>)
      ensures r.Failure? <==> CheckFontArguments(font, lineHeight).Fail?
      ensures r.Failure? ==> r.error == CheckFontArguments(font, lineHeight).error
      ensures r.Success? ==> var v := r.value;
                fresh(v) && v.Valid() && v.font == font && v.lineHeight == lineHeight as real
                && v.brushes == [WhiteBrush] && v.shadowIndex == 0
                && fresh(v.format) && v.format.typographic && v.format.noWrap
                && !v.antialiasing && !v.drawShadow
    {
      var check := CheckFontArguments(font, lineHeight);
      if check.Fail? {
        return Failure(check.error);
      }
      var v := new TextRendererOptions.Init(font, lineHeight);
      r := Success(v);
    }

    /** `new TextRendererOptions(FontFamily, int, int, FontStyle)`: builds a
        pixel-sized font of the family, then sets up as above. */
    static method FromFamily(family: FontFamily?, fontSize: int, lineHeight: int, style: FontStyle)
      returns (r: Result<TextRendererOptions>)
      ensures r.Failure? <==> CheckFamilyArguments(family, fontSize, lineHeight).Fail?
      ensures r.Failure? ==> r.error == CheckFamilyArguments(family, fontSize, lineHeight).error
      ensures r.Success? ==> var v := r.value;
                fresh(v) && v.Valid() && fresh(v.font)
                && v.font.family == family && v.font.size == fontSize && v.font.style == style
                && v.lineHeight == lineHeight as real
                && v.brushes == [WhiteBrush] && v.shadowIndex == 0
                && fresh(v.format) && v.format.typographic && v.format.noWrap
                && !v.antialiasing && !v.drawShadow
    {
      var check := CheckFamilyArguments(family, fontSize, lineHeight);
      if check.Fail? {
        return Failure(check.error);
      }
      var f := new Font(family, fontSize, style);
      var v := new TextRendererOptions.Init(f, lineHeight);
      r := Success(v);
    }

    /** The `LineHeight` setter. */
    method SetLineHeight(value: Single) returns (r: Outcome)
      modifies this
      ensures r == CheckLineHeight(value)
      ensures lineHeight == (if r.Pass? then value.value else old(lineHeight))
      ensures old(Valid()) ==> Valid()
      ensures brushes == old(brushes) && font == old(font) && shadowIndex == old(shadowIndex)
      ensures format == old(format) && antialiasing == old(antialiasing) && drawShadow == old(drawShadow)
    {
      r := CheckLineHeight(value);
      if r.Pass? {
        lineHeight := value.value;
      }
    }

    /** The `ShadowIndex` setter. */
    method SetShadowIndex(value: int) returns (r: Outcome)
      modifies this
      ensures r == CheckShadowIndex(value)
      ensures shadowIndex == (if r.Pass? then value else old(shadowIndex))
      ensures old(Valid()) ==> Valid()
      ensures lineHeight == old(lineHeight) && brushes == old(brushes) && font == old(font)
      ensures format == old(format) && antialiasing == old(antialiasing) && drawShadow == old(drawShadow)
    {
      r := CheckShadowIndex(value);
      if r.Pass? {
        shadowIndex := value;
      }
    }

    /** The `Font` setter: rejects null. */
    method SetFont(value: Font?) returns (r: Outcome)
      modifies this
      ensures r == (if value == null then Fail(ArgumentNull("value")) else Pass)
      ensures font == (if r.Pass? then value else old(font))
      ensures old(Valid()) ==> Valid()
      ensures lineHeight == old(lineHeight) && brushes == old(brushes) && shadowIndex == old(shadowIndex)
      ensures format == old(format) && antialiasing == old(antialiasing) && drawShadow == old(drawShadow)
    {
      if value == null {
        return Fail(ArgumentNull("value"));
      }
      font := value;
      r := Pass;
    }

    /** The `Format` setter: rejects null. */
    method SetFormat(value: StringFormat?) returns (r: Outcome)
      modifies this
      ensures r == (if value == null then Fail(ArgumentNull("value")) else Pass)
      ensures format == (if r.Pass? then value else old(format))
      ensures old(Valid()) ==> Valid()
      ensures lineHeight == old(lineHeight) && brushes == old(brushes) && shadowIndex == old(shadowIndex)
      ensures font == old(font) && antialiasing == old(antialiasing) && drawShadow == old(drawShadow)
    {
      if value == null {
        return Fail(ArgumentNull("value"));
      }
      format := value;
      r := Pass;
    }

    /** The `Antialiasing` auto-property's setter: no check. */
    method SetAntialiasing(value: bool)
      modifies this
      ensures antialiasing == value && drawShadow == old(drawShadow)
      ensures lineHeight == old(lineHeight) && brushes == old(brushes) && shadowIndex == old(shadowIndex)
      ensures font == old(font) && format == old(format)
    {
      antialiasing := value;
    }

    /** The `DrawShadow` auto-property's setter: no check. */
    method SetDrawShadow(value: bool)
      modifies this
      ensures drawShadow == value && antialiasing == old(antialiasing)
      ensures lineHeight == old(lineHeight) && brushes == old(brushes) && shadowIndex == old(shadowIndex)
      ensures font == old(font) && format == old(format)
    {
      drawShadow := value;
    }
  }

  /** The unit tests' scenarios: line height and shadow index round-trip
      through their setters, and a rejected value changes nothing. */
  method Scenario(family: FontFamily)
  {
    var font := new Font(family, 10, Regular);
    var r := TextRendererOptions.FromFont(font, 10);
    var options := r.value;
    assert options.brushes == [WhiteBrush] && options.shadowIndex == 0;
    var ok := options.SetLineHeight(Finite(12.0));
    assert options.lineHeight == 12.0;
    ok := options.SetLineHeight(NaN);
    assert ok.Fail? && options.lineHeight == 12.0;
    ok := options.SetShadowIndex(3);
    assert options.shadowIndex == 3;
    ok := options.SetShadowIndex(-1);
    assert ok.Fail? && options.shadowIndex == 3;
  }
}
