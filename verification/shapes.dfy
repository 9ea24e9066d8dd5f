/** The marker shape names: aliases such as `square` or `star` stand for a
    base shape with a rotation, and the base shapes `<N>gon`, `<N>star` and
    `<N>cross` name a regular polygon, a star or a cross with N points. Any
    other name draws a circle. */
module Shapes {
  import opened Text

  datatype Outline =
    | Circle
    | Polygon(vertices: nat)
    | Star(vertices: nat)     // outer and inner points together
    | Cross(arms: nat)

  /** A parsed shape: the outline, the alias rotation as a multiple of pi
      radians, and the factor applied to the marker radius so that polygons
      and stars look as large as circles. */
  datatype ShapeSpec = ShapeSpec(outline: Outline, rotation: real, radiusScale: real)

  /** An alias stands for the base shape `<count><suffix>`, rotated by
      `rotation` times pi radians. */
  datatype Alias = Alias(count: nat, suffix: string, rotation: real) {
    function Base(): string {
      NatToString(count) + suffix
    }
  }

  /** The alias table of `_updateShape`; `Alias(4, "gon", 0.25)` stands for
      the base shape `4gon` turned by a quarter of pi. */
  const Aliases: map<string, Alias> := map[
    "triangle" := Alias(3, "gon", 0.0),
    "triangle-u" := Alias(3, "gon", 0.0),
    "triangle-d" := Alias(3, "gon", 1.0),
    "triangle-l" := Alias(3, "gon", 0.5),
    "triangle-r" := Alias(3, "gon", 1.5),
    "square" := Alias(4, "gon", 0.25),
    "diamond" := Alias(4, "gon", 0.0),
    "pentagon" := Alias(5, "gon", 0.0),
    "hexagon" := Alias(6, "gon", 0.0),
    "heptagon" := Alias(7, "gon", 0.0),
    "octagon" := Alias(8, "gon", 0.125),
    "nonagon" := Alias(9, "gon", 0.0),
    "decagon" := Alias(10, "gon", 0.0),
    "star" := Alias(5, "star", 0.0),
    "cross" := Alias(4, "cross", 0.0),
    "plus" := Alias(4, "cross", 0.0),
    "x" := Alias(4, "cross", 0.25),
    "asterisk" := Alias(6, "cross", 0.0)]

  /** Whether `c` matches the pattern letter `p` under a case-insensitive
      Unicode regular expression (`/ui`): the names are lower-cased already,
      and U+017F LATIN SMALL LETTER LONG S folds to `s`. */
  predicate FoldsTo(c: char, p: char) {
    c == p || (p == 's' && c == '\U{17F}')
  }

  /** `/^[0-9]+<suffix>$/ui.test(s)`. */
  predicate IsCountedName(s: string, suffix: string) {
    && |s| > |suffix|
    && AllDigits(s[..|s| - |suffix|])
    && forall i :: 0 <= i < |suffix| ==> FoldsTo(s[|s| - |suffix| + i], suffix[i])
  }

  /** `parseFloat(s)` on a counted name: the value of its leading digits. */
  function Count(s: string, suffix: string): nat
    requires IsCountedName(s, suffix)
  {
    DigitsValue(s[..|s| - |suffix|])
  }

  /** The outline of a base shape name; a star with N points has 2N
      vertices. */
  function BaseOutline(base: string): (o: Outline)
    ensures o.Polygon? <==> IsCountedName(base, "gon")
    ensures o.Polygon? ==> o.vertices == Count(base, "gon")
    ensures o.Star? <==> !IsCountedName(base, "gon") && IsCountedName(base, "star")
    ensures o.Star? ==> o.vertices == 2 * Count(base, "star") && o.vertices % 2 == 0
    ensures o.Cross? <==> !IsCountedName(base, "gon") && !IsCountedName(base, "star") && IsCountedName(base, "cross")
    ensures o.Cross? ==> o.arms == Count(base, "cross")
  {
    if IsCountedName(base, "gon") then Polygon(Count(base, "gon"))
    else if IsCountedName(base, "star") then Star(2 * Count(base, "star"))
    else if IsCountedName(base, "cross") then Cross(Count(base, "cross"))
    else Circle
  }

  function RadiusScale(o: Outline): real {
    match o
    case Polygon(_) => 1.3
    case Star(_) => 1.6
    case _ => 1.0
  }

  /** The shape drawn for the marker option `shape`: lower-cased, then an
      alias replaced by its base shape and rotation, then the base shape
      parsed. */
  function ParseShape(name: string): (r: ShapeSpec)
    ensures r.rotation != 0.0 ==> ToLowerAscii(name) in Aliases
  {
    var lowered := ToLowerAscii(name);
    var base := if lowered in Aliases then Aliases[lowered].Base() else lowered;
    var rotation := if lowered in Aliases then Aliases[lowered].rotation else 0.0;
    var outline := BaseOutline(base);
    ShapeSpec(outline, rotation, RadiusScale(outline))
  }

  //--------------------------------------------------------------------
  // Properties
  //--------------------------------------------------------------------

  lemma LowerDigitsAndLetters(n: nat, suffix: string)
    requires forall i :: 0 <= i < |suffix| ==> 'a' <= suffix[i] <= 'z'
    ensures ToLowerAscii(NatToString(n) + suffix) == NatToString(n) + suffix
  {
    var s := NatToString(n) + suffix;
    forall i | 0 <= i < |s|
      ensures LowerChar(s[i]) == s[i]
    {
      if i >= |NatToString(n)| {
        assert s[i] == suffix[i - |NatToString(n)|];
      }
    }
  }

  /** Rendering a count and appending a base-shape suffix parses back to
      that count. */
  lemma CountedNameRoundTrip(n: nat, suffix: string)
    requires |suffix| > 0
    ensures IsCountedName(NatToString(n) + suffix, suffix)
    ensures Count(NatToString(n) + suffix, suffix) == n
  {
    var s := NatToString(n) + suffix;
    assert s[..|s| - |suffix|] == NatToString(n);
    forall i | 0 <= i < |suffix|
      ensures s[|s| - |suffix| + i] == suffix[i]
    {
    }
    DigitsValueOfNatToString(n);
  }

  /** No alias starts with a digit, so no counted name is an alias. */
  lemma AliasesStartWithLetters(name: string)
    requires |name| > 0 && IsDigit(name[0])
    ensures name !in Aliases
  {
    assert forall a :: a in Aliases ==> !IsDigit(a[0]);
  }

  /** The facts about one counted name the parse needs: it is its own lower
      case, it is no alias, and it parses to `n`. */
  lemma CountedName(n: nat, suffix: string)
    requires |suffix| > 0 && forall i :: 0 <= i < |suffix| ==> 'a' <= suffix[i] <= 'z'
    ensures ToLowerAscii(NatToString(n) + suffix) == NatToString(n) + suffix
    ensures NatToString(n) + suffix !in Aliases
    ensures IsCountedName(NatToString(n) + suffix, suffix)
    ensures Count(NatToString(n) + suffix, suffix) == n
  {
    LowerDigitsAndLetters(n, suffix);
    CountedNameRoundTrip(n, suffix);
    var s := NatToString(n) + suffix;
    assert s[0] == NatToString(n)[0];
    AliasesStartWithLetters(s);
  }

  lemma GonOutline(n: nat)
    ensures BaseOutline(NatToString(n) + "gon") == Polygon(n)
  {
    CountedNameRoundTrip(n, "gon");
  }

  /** A name whose last character does not match the pattern's last letter
      is not a counted name with that suffix. */
  lemma LastLetterMismatch(s: string, suffix: string)
    requires |s| > 0 && |suffix| > 0 && !FoldsTo(s[|s| - 1], suffix[|suffix| - 1])
    ensures !IsCountedName(s, suffix)
  {
  }

  lemma StarOutline(n: nat)
    ensures BaseOutline(NatToString(n) + "star") == Star(2 * n)
  {
    CountedNameRoundTrip(n, "star");
    var s := NatToString(n) + "star";
    assert s[|s| - 1] == 'r';
    LastLetterMismatch(s, "gon");
  }

  lemma CrossOutline(n: nat)
    ensures BaseOutline(NatToString(n) + "cross") == Cross(n)
  {
    CountedNameRoundTrip(n, "cross");
    var c := NatToString(n) + "cross";
    assert c[|c| - 1] == 's';
    LastLetterMismatch(c, "gon");
    LastLetterMismatch(c, "star");
  }

  /** `<N>gon` is an unrotated N-gon, for every N. */
  lemma ParseGon(n: nat)
    ensures ParseShape(NatToString(n) + "gon") == ShapeSpec(Polygon(n), 0.0, 1.3)
  {
    CountedName(n, "gon");
    GonOutline(n);
  }

  /** `<N>star` is an unrotated star with 2N vertices, for every N. */
  lemma ParseStar(n: nat)
    ensures ParseShape(NatToString(n) + "star") == ShapeSpec(Star(2 * n), 0.0, 1.6)
  {
    CountedName(n, "star");
    StarOutline(n);
  }

  /** `<N>cross` is an unrotated cross with N arms, for every N. */
  lemma ParseCross(n: nat)
    ensures ParseShape(NatToString(n) + "cross") == ShapeSpec(Cross(n), 0.0, 1.0)
  {
    CountedName(n, "cross");
    CrossOutline(n);
  }

  /** Shape names are case-insensitive. */
  lemma ParseShapeIgnoresCase(name: string)
    ensures ParseShape(ToLowerAscii(name)) == ParseShape(name)
  {
    ToLowerAsciiIdempotent(name);
  }

  /** The outline an alias's base shape parses to. */
  function AliasOutline(a: Alias): Outline {
    if a.suffix == "gon" then Polygon(a.count)
    else if a.suffix == "star" then Star(2 * a.count)
    else Cross(a.count)
  }

  /** Every alias names a base shape the parser recognises (so no alias
      falls back to a circle), and a lower-case alias is drawn as that base
      shape with the alias's rotation. */
  lemma ParseAlias(name: string)
    requires name in Aliases
    ensures BaseOutline(Aliases[name].Base()) == AliasOutline(Aliases[name])
    ensures ToLowerAscii(name) == name ==>
      ParseShape(name) == ShapeSpec(AliasOutline(Aliases[name]), Aliases[name].rotation, RadiusScale(AliasOutline(Aliases[name])))
  {
    var a := Aliases[name];
    assert a.suffix in {"gon", "star", "cross"};
    if a.suffix == "gon" {
      GonOutline(a.count);
    } else if a.suffix == "star" {
      StarOutline(a.count);
    } else {
      CrossOutline(a.count);
    }
  }

  /** `circle` is no alias and no counted name: it draws a circle. */
  lemma CircleShape()
    ensures ParseShape("circle") == ShapeSpec(Circle, 0.0, 1.0)
  {
    assert ToLowerAscii("circle") == "circle";
    AliasesStartWithLetters("3gon");
    assert !AllDigits("circle"[..3]) by { assert "circle"[..3][0] == 'c'; }
    assert !AllDigits("circle"[..2]) by { assert "circle"[..2][0] == 'c'; }
    assert !AllDigits("circle"[..1]) by { assert "circle"[..1][0] == 'c'; }
  }

  /** The default shapes of the lake, well and rain layers. */
  lemma DefaultTypeShapes()
    ensures ParseShape("square") == ShapeSpec(Polygon(4), 0.25, 1.3)
    ensures ParseShape("triangle-u") == ShapeSpec(Polygon(3), 0.0, 1.3)
    ensures ParseShape("diamond") == ShapeSpec(Polygon(4), 0.0, 1.3)
  {
    assert ToLowerAscii("square") == "square";
    ParseAlias("square");
    assert ToLowerAscii("triangle-u") == "triangle-u";
    ParseAlias("triangle-u");
    assert ToLowerAscii("diamond") == "diamond";
    ParseAlias("diamond");
  }

  /** Aliases that rotate their base shape. */
  lemma RotatedAliases()
    ensures ParseShape("triangle-d") == ShapeSpec(Polygon(3), 1.0, 1.3)
    ensures ParseShape("octagon") == ShapeSpec(Polygon(8), 0.125, 1.3)
    ensures ParseShape("x") == ShapeSpec(Cross(4), 0.25, 1.0)
  {
    assert ToLowerAscii("triangle-d") == "triangle-d";
    ParseAlias("triangle-d");
    assert ToLowerAscii("octagon") == "octagon";
    ParseAlias("octagon");
    assert ToLowerAscii("x") == "x";
    ParseAlias("x");
  }

  /** The star alias: a five-pointed star, ten vertices in all. */
  lemma StarAlias()
    ensures ParseShape("star") == ShapeSpec(Star(10), 0.0, 1.6)
  {
    assert ToLowerAscii("star") == "star";
    ParseAlias("star");
  }

  /** The asterisk alias: a six-armed cross. */
  lemma AsteriskAlias()
    ensures ParseShape("asterisk") == ShapeSpec(Cross(6), 0.0, 1.0)
  {
    assert ToLowerAscii("asterisk") == "asterisk";
    ParseAlias("asterisk");
  }

  /** Case folding in the pattern match: a long s completes `star`, and the
      Kelvin sign lower-cases to the `k` of `asterisk`. */
  lemma UnicodeCaseVariants()
    ensures ParseShape("5\U{17F}tar").outline == Star(10)
    ensures ParseShape("asteris\U{212A}") == ParseShape("asterisk")
  {
    var s := "5\U{17F}tar";
    assert ToLowerAscii(s) == s;
    AliasesStartWithLetters(s);
    assert !AllDigits(s[..2]) by { assert s[..2][1] == '\U{17F}'; }
    assert IsCountedName(s, "star");
    assert s[..1] == "5";
    assert DigitsValue("5") == 5 by { assert "5"[..0] == ""; }
    assert ToLowerAscii("asteris\U{212A}") == "asterisk";
    assert ToLowerAscii("asterisk") == "asterisk";
  }
}
