/**
 * Prompt synthesis: the text description of a lighting setup, built from
 * a fixed preamble, the key clause, the fill and rim clauses when those
 * lights are enabled, and the background clause, in that order.
 */
module PromptSynthesis {
  import opened Wrappers
  import opened Decimal
  import opened ColorConverter
  import opened LightingConfig

  /** The background colour does not parse as a hex colour. */
  datatype PromptError = InvalidColorFormat

  const Preamble: string := "Professional product photography setup with "

  /** The key light's strength word: strong above 65 percent, soft otherwise. */
  function Strength(intensity: int): (w: string)
    ensures w == "strong" <==> intensity > 65
    ensures w == "soft" <==> intensity <= 65
  {
    if intensity > 65 then "strong" else "soft"
  }

  /** "a strong " or "a soft ", the words the key clause opens with. */
  function KeyOpening(intensity: int): string {
    "a " + Strength(intensity) + " "
  }

  // Each clause is the concatenation of the pieces generatePrompt appends one
  // statement at a time; Synthesize nests to the right, so that each clause
  // is followed by everything after it.

  /** The first piece of the key clause, opening with its strength words. */
  function KeyHeightPart(k: KeyLight): string {
    KeyOpening(k.intensity) + (k.fixture + " as the key light positioned at " + IntToString(k.height) + "cm height, ")
  }

  function KeyAnglePart(k: KeyLight): string {
    IntToString(k.angle) + "° angle, with " + IntToString(k.color) + "K color temperature, "
  }

  function KeyDistancePart(k: KeyLight): string {
    IntToString(k.distance) + "cm from subject. "
  }

  /** The key clause; it opens with "a strong " or "a soft ", as its intensity dictates. */
  function KeyClause(k: KeyLight): (s: string)
    ensures StartsWith(s, KeyOpening(k.intensity))
  {
    var o, h := KeyOpening(k.intensity), KeyHeightPart(k);
    PrefixOfAppend(o, o, k.fixture + " as the key light positioned at " + IntToString(k.height) + "cm height, ");
    PrefixOfAppend(o, h, KeyAnglePart(k));
    PrefixOfAppend(o, h + KeyAnglePart(k), KeyDistancePart(k));
    h + KeyAnglePart(k) + KeyDistancePart(k)
  }

  function FillHeightPart(f: FillLight): string {
    "Fill light using " + f.fixture + " at " + IntToString(f.height) + "cm height, "
  }

  function FillAnglePart(f: FillLight): string {
    IntToString(f.angle) + "° angle, at " + IntToString(f.intensity) + "% intensity, "
  }

  function FillDistancePart(f: FillLight): string {
    IntToString(f.distance) + "cm from subject. "
  }

  /**
   * The fill clause, labelled "Fill light using " and closing with the
   * distance; it does not mention the fill light's colour temperature.
   */
  function FillClause(f: FillLight): (s: string)
    ensures StartsWith(s, "Fill light using ")
    ensures EndsWith(s, "cm from subject. ")
  {
    var h, a, d := FillHeightPart(f), FillAnglePart(f), FillDistancePart(f);
    PrefixOfAppend("Fill light using ", h, a);
    PrefixOfAppend("Fill light using ", h + a, d);
    SuffixOfAppend(IntToString(f.distance), "cm from subject. ");
    SuffixOfLonger(h + a, d, "cm from subject. ");
    h + a + d
  }

  function RimHeightPart(r: RimLight): string {
    "Rim light positioned at " + IntToString(r.height) + "cm height, "
  }

  function RimAnglePart(r: RimLight): string {
    IntToString(r.angle) + "° angle, at " + IntToString(r.intensity) + "% intensity, "
  }

  function RimDistancePart(r: RimLight): string {
    IntToString(r.color) + "K color temperature, " + IntToString(r.distance) + "cm from subject. "
  }

  /** The rim clause, labelled "Rim light positioned at " and closing with the distance. */
  function RimClause(r: RimLight): (s: string)
    ensures StartsWith(s, "Rim light positioned at ")
    ensures EndsWith(s, "cm from subject. ")
  {
    var h, a, d := RimHeightPart(r), RimAnglePart(r), RimDistancePart(r);
    PrefixOfAppend("Rim light positioned at ", h, a);
    PrefixOfAppend("Rim light positioned at ", h + a, d);
    SuffixOfAppend(IntToString(r.color) + "K color temperature, " + IntToString(r.distance), "cm from subject. ");
    SuffixOfLonger(h + a, d, "cm from subject. ");
    h + a + d
  }

  /**
   * The closing clause: the shade word, then the backdrop's distance; unlike
   * the others it ends without a space.
   */
  function BackdropClause(shade: Shade, b: Backdrop): (s: string)
    ensures StartsWith(s, ShadeName(shade) + " green backdrop positioned ")
    ensures EndsWith(s, "cm behind subject.")
  {
    var o := ShadeName(shade) + " green backdrop positioned ";
    PrefixOfAppend(o, o, IntToString(b.distance));
    PrefixOfAppend(o, o + IntToString(b.distance), "cm behind subject.");
    SuffixOfAppend(o + IntToString(b.distance), "cm behind subject.");
    o + IntToString(b.distance) + "cm behind subject."
  }

  /** A clause's text when its light is enabled, nothing otherwise. */
  function Optional(enabled: bool, clause: string): string {
    if enabled then clause else ""
  }

  /**
   * The prompt text for a configuration, given the shade word of its
   * background. It opens with the preamble and then "a strong " or "a soft "
   * as the key light's intensity dictates, and closes with the background
   * clause.
   */
  function Synthesize(c: Config, shade: Shade): (s: string)
    ensures StartsWith(s, Preamble + KeyOpening(c.mainLight.intensity))
    ensures EndsWith(s, BackdropClause(shade, c.background))
  {
    var k := KeyClause(c.mainLight);
    var f := Optional(c.fillLight.enabled, FillClause(c.fillLight));
    var r := Optional(c.rimLight.enabled, RimClause(c.rimLight));
    var b := BackdropClause(shade, c.background);
    var o := KeyOpening(c.mainLight.intensity);
    PrefixOfAppend(o, k, f + (r + b));
    PrefixCancel(Preamble, o, k + (f + (r + b)));
    SuffixOfAppend(r, b);
    SuffixOfLonger(f, r + b, b);
    SuffixOfLonger(k, f + (r + b), b);
    SuffixOfLonger(Preamble, k + (f + (r + b)), b);
    Preamble + (k + (f + (r + b)))
  }

  /** The shade word of a background colour that parses. */
  function BackdropShade(color: string): Shade
    requires IsHexColor(color)
  {
    GreenShade(HexToRgb(color).value.g)
  }

  /**
   * generatePrompt on a configuration value. It fails exactly when the
   * background colour does not parse (where generatePrompt dereferences
   * null); otherwise it is the synthesis with the shade of the parsed green
   * channel.
   */
  function Prompt(c: Config): (r: Result<string, PromptError>)
    ensures r.Failure? <==> !IsHexColor(c.background.color)
    ensures r.Success? ==> r.value == Synthesize(c, BackdropShade(c.background.color))
  {
    match HexToRgb(c.background.color)
    case None => Failure(InvalidColorFormat)
    case Some(rgb) => Success(Synthesize(c, GreenShade(rgb.g)))
  }

  predicate StartsWith(s: string, prefix: string) {
    prefix <= s
  }

  predicate EndsWith(s: string, suffix: string) {
    |suffix| <= |s| && s[|s| - |suffix|..] == suffix
  }

  // Facts about concatenation, for arbitrary strings.

  lemma PrefixCancel(a: string, x: string, y: string)
    ensures (a + x <= a + y) <==> x <= y
  {
    if a + x <= a + y {
      assert x == (a + x)[|a|..] == (a + y)[|a|..|a| + |x|] == y[..|x|];
    }
  }

  lemma PrefixOfAppend(x: string, a: string, b: string)
    requires x <= a
    ensures x <= a + b
  {
    assert (a + b)[..|x|] == a[..|x|];
  }

  lemma SuffixOfAppend(a: string, b: string)
    ensures EndsWith(a + b, b)
  {
    assert (a + b)[|a + b| - |b|..] == b;
  }

  lemma SuffixOfLonger(a: string, s: string, b: string)
    requires EndsWith(s, b)
    ensures EndsWith(a + s, b)
  {
    assert (a + s)[|a + s| - |b|..] == s[|s| - |b|..];
  }

  lemma AppendEmpty(s: string)
    ensures s + "" == s
  {
  }

  /** Three pieces appended one after another make one clause. */
  lemma Regroup3(p: string, x: string, y: string, z: string)
    ensures p + x + y + z == p + (x + y + z)
  {
  }

  /** Clauses appended one after another are the prompt, nested to the right. */
  lemma Regroup4(p: string, k: string, f: string, r: string, b: string)
    ensures p + k + f + r + b == p + (k + (f + (r + b)))
  {
  }

  // Properties of synthesis.

  /** A configuration within the controls' bounds always yields a prompt. */
  lemma ValidPromptSucceeds(c: Config)
    requires Valid(c)
    ensures Prompt(c).Success?
  {
    PickerColorIff(c.background.color);
  }

  /** The fill light's colour temperature is stored but never reaches the prompt. */
  lemma FillTemperatureIgnored(c: Config, kelvin: int)
    ensures Prompt(Update(c, Fill, Color, Num(kelvin))) == Prompt(c)
  {
    var e := c.(fillLight := c.fillLight.(color := kelvin));
    assert Update(c, Fill, Color, Num(kelvin)) == e;
    assert FillClause(e.fillLight) == FillClause(c.fillLight);
  }

  /**
   * Turning the fill light off removes exactly the fill clause: with it on
   * the text is the preamble, the key clause, the fill clause and then the
   * rest; with it off the same, less the fill clause.
   */
  lemma DisablingFillRemovesClause(c: Config, shade: Shade)
    requires c.fillLight.enabled
    ensures var rest := Optional(c.rimLight.enabled, RimClause(c.rimLight)) + BackdropClause(shade, c.background);
      Synthesize(c, shade) == Preamble + (KeyClause(c.mainLight) + (FillClause(c.fillLight) + rest)) &&
      Synthesize(Toggle(c, Fill), shade) == Preamble + (KeyClause(c.mainLight) + rest)
  {
    var rest := Optional(c.rimLight.enabled, RimClause(c.rimLight)) + BackdropClause(shade, c.background);
    assert Toggle(c, Fill) == c.(fillLight := c.fillLight.(enabled := false));
    assert "" + rest == rest;
  }

  /**
   * Turning the rim light off removes exactly the rim clause, leaving what
   * precedes and follows it in place.
   */
  lemma DisablingRimRemovesClause(c: Config, shade: Shade)
    requires c.rimLight.enabled
    ensures var k, f, b := KeyClause(c.mainLight), Optional(c.fillLight.enabled, FillClause(c.fillLight)), BackdropClause(shade, c.background);
      Synthesize(c, shade) == Preamble + (k + (f + (RimClause(c.rimLight) + b))) &&
      Synthesize(Toggle(c, Rim), shade) == Preamble + (k + (f + b))
  {
    var b := BackdropClause(shade, c.background);
    assert Toggle(c, Rim) == c.(rimLight := c.rimLight.(enabled := false));
    assert "" + b == b;
  }

  // The startup configuration's clauses, piece by piece.

  lemma DefaultKeyText()
    ensures KeyClause(Default.mainLight) ==
      "a " + "strong" + " " + ("softbox" + " as the key light positioned at " + "200" + "cm height, ") +
      ("45" + "° angle, with " + "5600" + "K color temperature, ") + ("150" + "cm from subject. ")
  {
    var k := Default.mainLight;
    assert k == KeyLight("softbox", 200, 45, 75, 5600, 150);
    assert KeyHeightPart(k) == "a " + "strong" + " " + ("softbox" + " as the key light positioned at " + "200" + "cm height, ") by {
      assert IntToString(200) == "200";
    }
    assert KeyAnglePart(k) == "45" + "° angle, with " + "5600" + "K color temperature, " by {
      assert IntToString(45) == "45" && IntToString(5600) == "5600";
    }
    assert KeyDistancePart(k) == "150" + "cm from subject. " by {
      assert IntToString(150) == "150";
    }
  }

  lemma DefaultFillText()
    ensures FillClause(Default.fillLight) ==
      ("Fill light using " + "umbrella" + " at " + "150" + "cm height, ") +
      ("30" + "° angle, at " + "40" + "% intensity, ") + ("180" + "cm from subject. ")
  {
    var f := Default.fillLight;
    assert f == FillLight(true, "umbrella", 150, 30, 40, 5600, 180);
    assert FillHeightPart(f) == "Fill light using " + "umbrella" + " at " + "150" + "cm height, " by {
      assert IntToString(150) == "150";
    }
    assert FillAnglePart(f) == "30" + "° angle, at " + "40" + "% intensity, " by {
      assert IntToString(30) == "30" && IntToString(40) == "40";
    }
    assert FillDistancePart(f) == "180" + "cm from subject. " by {
      assert IntToString(180) == "180";
    }
  }

  lemma DefaultRimText()
    ensures RimClause(Default.rimLight) ==
      ("Rim light positioned at " + "180" + "cm height, ") +
      ("135" + "° angle, at " + "60" + "% intensity, ") +
      ("6000" + "K color temperature, " + "120" + "cm from subject. ")
  {
    var r := Default.rimLight;
    assert r == RimLight(true, 180, 135, 60, 6000, 120);
    assert RimHeightPart(r) == "Rim light positioned at " + "180" + "cm height, " by {
      assert IntToString(180) == "180";
    }
    assert RimAnglePart(r) == "135" + "° angle, at " + "60" + "% intensity, " by {
      assert IntToString(135) == "135" && IntToString(60) == "60";
    }
    assert RimDistancePart(r) == "6000" + "K color temperature, " + "120" + "cm from subject. " by {
      assert IntToString(6000) == "6000" && IntToString(120) == "120";
    }
  }

  lemma DefaultBackdropText()
    ensures BackdropClause(Medium, Default.background) ==
      "medium" + " green backdrop positioned " + "80" + "cm behind subject."
  {
    assert Default.background == Backdrop("#00b300", 80);
    assert IntToString(80) == "80";
  }

  /**
   * The prompt for the startup configuration, word for word (split where
   * the configuration's values are inserted): its key light at 75 percent
   * is described as strong, and its background as medium.
   */
  lemma DefaultPrompt()
    ensures Prompt(Default) == Success(Preamble + (
      ("a " + "strong" + " " + ("softbox" + " as the key light positioned at " + "200" + "cm height, ") +
       ("45" + "° angle, with " + "5600" + "K color temperature, ") + ("150" + "cm from subject. ")) + (
      (("Fill light using " + "umbrella" + " at " + "150" + "cm height, ") +
       ("30" + "° angle, at " + "40" + "% intensity, ") + ("180" + "cm from subject. ")) + (
      (("Rim light positioned at " + "180" + "cm height, ") +
       ("135" + "° angle, at " + "60" + "% intensity, ") +
       ("6000" + "K color temperature, " + "120" + "cm from subject. ")) +
      ("medium" + " green backdrop positioned " + "80" + "cm behind subject.")))))
  {
    DefaultBackdropIsMedium();
    DefaultKeyText();
    DefaultFillText();
    DefaultRimText();
    DefaultBackdropText();
  }
}
