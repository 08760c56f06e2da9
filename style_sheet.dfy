/** `ThousandIsland::StyleSheet`: the default text styles, each heading style a
    scaled copy of the default style. A style sheet that overrides
    `default_style` is modelled by passing that style as `base`. */
module StyleSheet {
  import opened Values
  import opened StyleHashes

  /** `default_style` */
  function DefaultStyle(): (s: StyleHash)
    ensures s.entries.Keys == {"size", "style", "align", "leading", "inline_format", "color"}
    ensures Get(s, "size") == Int(10) && Get(s, "style") == Sym("normal") && Get(s, "align") == Sym("left")
    ensures Get(s, "leading") == Int(1) && Get(s, "inline_format") == Bool(true) && Get(s, "color") == Str("000000")
    ensures Get(s, "font_size") == Int(10) && Get(s, "styles") == List([Sym("normal")])
  {
    var e := map["size" := Int(10), "style" := Sym("normal"), "align" := Sym("left"),
                 "leading" := Int(1), "inline_format" := Bool(true), "color" := Str("000000")];
    assert e["size"] == Int(10) && e["style"] == Sym("normal");
    New(e)
  }

  /** `body_style`: the default style itself. */
  function BodyStyle(base: StyleHash): (s: StyleHash)
    ensures forall k :: Get(s, k) == Get(base, k)
  {
    base
  }

  /** `default_style.merge({size: default_style[:size] * factor, ...overrides})`.
      The base size is multiplied as Ruby's `*` does it: a number scales, a
      String or an Array repeats, and anything else raises NoMethodError. */
  function Scaled(base: StyleHash, factor: Number, overrides: Options): (r: Result<StyleHash>)
    requires "size" !in overrides
    ensures r.Ok? <==> Times(Get(base, "size"), factor).Ok?
    ensures r.Err? ==> r.error == Times(Get(base, "size"), factor).error
    ensures r.Ok? ==> r.value.entries.Keys == base.entries.Keys + {"size"} + overrides.Keys
    ensures r.Ok? ==> Get(r.value, "size") == Times(Get(base, "size"), factor).value
  {
    match Times(Get(base, "size"), factor)
    case Err(e) => Err(e)
    case Ok(size) => Ok(Merge(base, map["size" := size] + overrides))
  }

  function H1Overrides(): Options { map["style" := Sym("bold"), "leading" := Int(8)] }
  function H2Overrides(): Options { map["style" := Sym("bold"), "leading" := Int(2)] }
  function H3Overrides(): Options { map["style" := Sym("bold")] }
  function H4Overrides(): Options { map["style" := Sym("bold_italic")] }
  function H6Overrides(): Options { map["style" := Sym("italic")] }
  function FooterOverrides(): Options { map["color" := Str("666666"), "align" := Sym("center")] }

  /** `h1_style` */
  function H1Style(base: StyleHash): Result<StyleHash> { Scaled(base, Float(5.0 / 2.0), H1Overrides()) }
  /** `h2_style` */
  function H2Style(base: StyleHash): Result<StyleHash> { Scaled(base, Float(214.0 / 100.0), H2Overrides()) }
  /** `h3_style` */
  function H3Style(base: StyleHash): Result<StyleHash> { Scaled(base, Float(17.0 / 10.0), H3Overrides()) }
  /** `h4_style` */
  function H4Style(base: StyleHash): Result<StyleHash> { Scaled(base, Float(13.0 / 10.0), H4Overrides()) }
  /** `h5_style`: multiplies by the Integer 1. */
  function H5Style(base: StyleHash): Result<StyleHash> { Scaled(base, Int(1), map[]) }
  /** `h6_style` */
  function H6Style(base: StyleHash): Result<StyleHash> { Scaled(base, Float(85.0 / 100.0), H6Overrides()) }
  /** `footer_style` */
  function FooterStyle(base: StyleHash): Result<StyleHash> { Scaled(base, Float(4.0 / 5.0), FooterOverrides()) }

  /** The style method `<name>_style`, when the style sheet defines one. */
  function StyleFor(base: StyleHash, name: string): (r: Option<Result<StyleHash>>)
    ensures r.Some? <==> name in {"default", "body", "h1", "h2", "h3", "h4", "h5", "h6", "footer"}
  {
    match name
    case "default" => Some(Ok(base))
    case "body" => Some(Ok(BodyStyle(base)))
    case "h1" => Some(H1Style(base))
    case "h2" => Some(H2Style(base))
    case "h3" => Some(H3Style(base))
    case "h4" => Some(H4Style(base))
    case "h5" => Some(H5Style(base))
    case "h6" => Some(H6Style(base))
    case "footer" => Some(FooterStyle(base))
    case _ => None
  }

  // ---------------------------------------------------------------------------
  // Properties of the scaled styles

  /** The scaled size is the base size times the factor, read back through both
      `size` and its alias `font_size`; it is an Integer only when both are. */
  lemma ScaledSize(base: StyleHash, factor: Number, overrides: Options)
    requires "size" !in overrides && IsNumber(Get(base, "size"))
    ensures var r := Scaled(base, factor, overrides).value;
      IsNumber(Get(r, "size")) && Get(r, "font_size") == Get(r, "size")
      && ToReal(Get(r, "size")) == ToReal(Get(base, "size")) * ToReal(factor)
      && (Get(r, "size").Int? <==> Get(base, "size").Int? && factor.Int?)
  {
  }

  /** Every key the heading does not set keeps the base style's value, for
      any size `*` accepts (a number, a String or an Array). */
  lemma ScaledKeepsOthers(base: StyleHash, factor: Number, overrides: Options, k: Key)
    requires "size" !in overrides && Scaled(base, factor, overrides).Ok?
    requires k != "size" && k != "font_size" && k != "styles" && k !in overrides
    ensures Get(Scaled(base, factor, overrides).value, k) == Get(base, k)
  {
  }

  /** The keys a heading sets take the heading's value, whatever the base said. */
  lemma ScaledOverrides(base: StyleHash, factor: Number, overrides: Options, k: Key)
    requires "size" !in overrides && Scaled(base, factor, overrides).Ok?
    requires k in overrides && k != "font_size" && k != "styles"
    ensures Get(Scaled(base, factor, overrides).value, k) == overrides[k]
  {
  }

  /** `h5_style` is the default style again: multiplying by the Integer 1 keeps
      an Integer size an Integer and a Float size a Float. */
  lemma H5IsBase(base: StyleHash)
    requires "size" in base.entries && IsNumber(base.entries["size"])
    ensures H5Style(base) == Ok(base)
  {
    var size: Number := base.entries["size"];
    assert Mul(size, Int(1)) == size;
    assert base.entries + (map["size" := Mul(size, Int(1))] + map[]) == base.entries;
  }

  /** With the default style, `h1_style` is the six default keys with size 25.0,
      bold, leading 8. */
  lemma H1OfDefault()
    ensures H1Style(DefaultStyle()) == Ok(StyleHash(map[
      "size" := Float(25.0), "style" := Sym("bold"), "align" := Sym("left"),
      "leading" := Int(8), "inline_format" := Bool(true), "color" := Str("000000")]))
  {
    var e := DefaultStyle().entries;
    assert e == map["size" := Int(10), "style" := Sym("normal"), "align" := Sym("left"),
                    "leading" := Int(1), "inline_format" := Bool(true), "color" := Str("000000")];
    assert Mul(Int(10), Float(5.0 / 2.0)) == Float(25.0);
    assert H1Style(DefaultStyle()).value.entries
      == e + map["size" := Float(25.0), "style" := Sym("bold"), "leading" := Int(8)];
    MergeThreeOfSix("size", "style", "align", "leading", "inline_format", "color",
      Int(10), Sym("normal"), Sym("left"), Int(1), Bool(true), Str("000000"),
      Float(25.0), Sym("bold"), Int(8));
  }

  lemma MergeThreeOfSix<K, V>(k1: K, k2: K, k3: K, k4: K, k5: K, k6: K,
                              v1: V, v2: V, v3: V, v4: V, v5: V, v6: V, w1: V, w2: V, w4: V)
    requires k1 != k2 && k1 != k3 && k1 != k4 && k1 != k5 && k1 != k6
    requires k2 != k3 && k2 != k4 && k2 != k5 && k2 != k6
    requires k3 != k4 && k3 != k5 && k3 != k6 && k4 != k5 && k4 != k6 && k5 != k6
    ensures map[k1 := v1, k2 := v2, k3 := v3, k4 := v4, k5 := v5, k6 := v6] + map[k1 := w1, k2 := w2, k4 := w4]
         == map[k1 := w1, k2 := w2, k3 := v3, k4 := w4, k5 := v5, k6 := v6]
  {
    var l := map[k1 := v1, k2 := v2, k3 := v3, k4 := v4, k5 := v5, k6 := v6] + map[k1 := w1, k2 := w2, k4 := w4];
    var r := map[k1 := w1, k2 := w2, k3 := v3, k4 := w4, k5 := v5, k6 := v6];
    assert l.Keys == r.Keys;
    forall k | k in l
      ensures l[k] == r[k]
    {
      if k == k1 || k == k2 || k == k4 {
        assert l[k] == map[k1 := w1, k2 := w2, k4 := w4][k];
      } else {
        assert l[k] == map[k1 := v1, k2 := v2, k3 := v3, k4 := v4, k5 := v5, k6 := v6][k];
      }
    }
  }

  /** A custom default size cascades: size 12 gives an `h1_style` of 30.0 and a
      `footer_style` of 9.6, grey and centred. */
  lemma CustomSizeCascades(base: StyleHash)
    requires Get(base, "size") == Int(12)
    ensures Get(H1Style(base).value, "size") == Float(30.0)
    ensures Get(FooterStyle(base).value, "size") == Float(48.0 / 5.0)
    ensures Get(FooterStyle(base).value, "color") == Str("666666")
    ensures Get(FooterStyle(base).value, "align") == Sym("center")
  {
    ScaledSize(base, Float(5.0 / 2.0), H1Overrides());
    ScaledSize(base, Float(4.0 / 5.0), FooterOverrides());
    ScaledOverrides(base, Float(4.0 / 5.0), FooterOverrides(), "color");
    ScaledOverrides(base, Float(4.0 / 5.0), FooterOverrides(), "align");
    assert Mul(Int(12), Float(5.0 / 2.0)) == Float(30.0);
    assert Mul(Int(12), Float(4.0 / 5.0)) == Float(48.0 / 5.0);
  }

  /** A size Ruby can multiply is a number, a String or an Array. */
  predicate Multipliable(size: Value) {
    IsNumber(size) || size.Str? || size.List?
  }

  /** The heading styles all exist exactly when the base size can be
      multiplied; otherwise each of them raises NoMethodError. Every factor is
      positive, so a String or Array size never gives a negative count. */
  lemma HeadingsNeedSize(base: StyleHash)
    ensures H1Style(base).Ok? && H2Style(base).Ok? && H3Style(base).Ok? && H4Style(base).Ok?
            && H5Style(base).Ok? && H6Style(base).Ok? && FooterStyle(base).Ok?
            <==> Multipliable(Get(base, "size"))
    ensures !Multipliable(Get(base, "size")) ==>
      H1Style(base) == Err(NoMethodError) && H2Style(base) == Err(NoMethodError)
      && H3Style(base) == Err(NoMethodError) && H4Style(base) == Err(NoMethodError)
      && H5Style(base) == Err(NoMethodError) && H6Style(base) == Err(NoMethodError)
      && FooterStyle(base) == Err(NoMethodError)
  {
    assert Truncate(Float(5.0 / 2.0)) == 2;
    assert Truncate(Float(214.0 / 100.0)) == 2;
    assert Truncate(Float(17.0 / 10.0)) == 1;
    assert Truncate(Float(13.0 / 10.0)) == 1;
    assert Truncate(Float(85.0 / 100.0)) == 0;
    assert Truncate(Float(4.0 / 5.0)) == 0;
  }

  /** A String size is repeated: `"12" * 2.5` is `"1212"` in `h1_style`, and
      `"12" * 0.8` is `""` in `footer_style`. */
  lemma StringSizeRepeats(base: StyleHash)
    requires Get(base, "size") == Str("12")
    ensures Get(H1Style(base).value, "size") == Str("1212")
    ensures Get(FooterStyle(base).value, "size") == Str("")
  {
    assert Truncate(Float(5.0 / 2.0)) == 2;
    assert Truncate(Float(4.0 / 5.0)) == 0;
    assert Repeat("12", 2) == "1212" by {
      assert Repeat("12", 1) == Repeat("12", 0) + "12";
    }
  }

  // ---------------------------------------------------------------------------
  // available_styles

  const Suffix: string := "_style"

  predicate EndsWith(s: string, suffix: string) {
    |suffix| <= |s| && s[|s| - |suffix|..] == suffix
  }

  /** `pat` occurs in `s` at index `j`. */
  predicate OccursAt(s: string, pat: string, j: nat) {
    j + |pat| <= |s| && s[j..j + |pat|] == pat
  }

  /** The index of the first occurrence of `pat` in `s`. */
  function IndexOf(s: string, pat: string): (r: Option<nat>)
    ensures r.Some? ==> OccursAt(s, pat, r.value)
    ensures r.Some? ==> forall j: nat | j < r.value :: !OccursAt(s, pat, j)
    ensures r.None? ==> forall j: nat :: !OccursAt(s, pat, j)
    decreases |s|
  {
    if |s| < |pat| then None
    else if s[..|pat|] == pat then Some(0)
    else
      OccursShift(s, pat);
      match IndexOf(s[1..], pat)
      case None => None
      case Some(i) => Some(i + 1)
  }

  lemma OccursShift(s: string, pat: string)
    requires |s| > 0
    ensures |pat| <= |s| && s[..|pat|] != pat ==> !OccursAt(s, pat, 0)
    ensures forall j: nat | 0 < j :: OccursAt(s, pat, j) <==> OccursAt(s[1..], pat, j - 1)
  {
    forall j: nat | 0 < j
      ensures OccursAt(s, pat, j) <==> OccursAt(s[1..], pat, j - 1)
    {
      if j + |pat| <= |s| {
        assert s[1..][j - 1..j - 1 + |pat|] == s[j..j + |pat|];
      }
    }
  }

  /** `s.sub(pat, '')`: the first occurrence removed. */
  function SubFirst(s: string, pat: string): (r: string)
    ensures (forall j: nat :: !OccursAt(s, pat, j)) ==> r == s
    ensures forall i: nat | OccursAt(s, pat, i) && (forall j: nat | j < i :: !OccursAt(s, pat, j)) ::
      r == s[..i] + s[i + |pat|..] && r[..i] + pat + r[i..] == s
    ensures IndexOf(s, pat).Some? ==> |r| == |s| - |pat|
  {
    match IndexOf(s, pat)
    case None => s
    case Some(i) => s[..i] + s[i + |pat|..]
  }

  /** The style named by one method name, if it ends in `_style` and is not `default`. */
  function StyleName(methodName: string): Option<string> {
    if EndsWith(methodName, Suffix) && SubFirst(methodName, Suffix) != "default"
    then Some(SubFirst(methodName, Suffix)) else None
  }

  /** The style names of the given method names, in their order. */
  function StyleNames(methodNames: seq<string>): (r: seq<string>)
    ensures |r| <= |methodNames|
  {
    if |methodNames| == 0 then []
    else
      var rest := StyleNames(methodNames[..|methodNames| - 1]);
      match StyleName(methodNames[|methodNames| - 1])
      case None => rest
      case Some(n) => rest + [n]
  }

  /** The loop in the StyleSheet module body that builds `available_styles`. */
  method AvailableStyles(methodNames: seq<string>) returns (styles: seq<string>)
    ensures styles == StyleNames(methodNames)
  {
    styles := [];
    var i := 0;
    while i < |methodNames|
      invariant 0 <= i <= |methodNames|
      invariant styles == StyleNames(methodNames[..i])
    {
      var name := methodNames[i];
      assert methodNames[..i + 1][..i] == methodNames[..i];
      if EndsWith(name, Suffix) {
        var style := SubFirst(name, Suffix);
        if style != "default" {
          styles := styles + [style];
        }
      }
      i := i + 1;
    }
    assert methodNames[..i] == methodNames;
  }

  /** A name is an available style exactly when some `_style` method other than
      `default_style` yields it. */
  lemma {:induction false} StyleNamesMembers(methodNames: seq<string>, n: string)
    ensures n in StyleNames(methodNames) <==> exists m | m in methodNames :: StyleName(m) == Some(n)
  {
    if |methodNames| > 0 {
      var init := methodNames[..|methodNames| - 1];
      var last := methodNames[|methodNames| - 1];
      assert methodNames == init + [last];
      StyleNamesMembers(init, n);
      StyleNamesAppend(init, last);
      assert n in StyleNames(methodNames) <==> n in StyleNames(init) || StyleName(last) == Some(n);
      forall m
        ensures m in methodNames <==> m in init || m == last
      {
      }
    }
  }

  /** The style methods of the StyleSheet module, in definition order. */
  const StyleMethods: seq<string> := ["default_style", "body_style", "h1_style", "h2_style", "h3_style",
    "h4_style", "h5_style", "h6_style", "footer_style"]

  /** The available styles: every style method but `default_style`. */
  lemma DefaultAvailableStyles()
    ensures StyleNames(StyleMethods) == ["body", "h1", "h2", "h3", "h4", "h5", "h6", "footer"]
  {
    var stems := ["body", "h1", "h2", "h3", "h4", "h5", "h6", "footer"];
    StyleMethodsSplit(stems);
    forall st | st in stems
      ensures PlainStem(st)
    {
    }
    PlainStems(stems);
    StyleNamesConcat(["default_style"], WithSuffix(stems));
    DefaultStyleSkipped();
    var none: seq<string> := [];
    StyleNamesAppend(none, "default_style");
    assert none + ["default_style"] == ["default_style"];
  }

  /** The style methods are `default_style` and then `<stem>_style` for each stem. */
  lemma StyleMethodsSplit(stems: seq<string>)
    requires stems == ["body", "h1", "h2", "h3", "h4", "h5", "h6", "footer"]
    ensures StyleMethods == ["default_style"] + WithSuffix(stems)
  {
    var w := WithSuffix(stems);
    forall i | 0 <= i < |stems|
      ensures w[i] == StyleMethods[i + 1]
    {
      WithSuffixAt(stems, i);
    }
    assert StyleMethods == ["default_style"] + w;
  }

  lemma {:induction false} WithSuffixAt(stems: seq<string>, i: nat)
    requires i < |stems|
    ensures WithSuffix(stems)[i] == stems[i] + Suffix
  {
    if i < |stems| - 1 {
      WithSuffixAt(stems[..|stems| - 1], i);
    }
  }

  /** `default_style` names no available style. */
  lemma DefaultStyleSkipped()
    ensures StyleName("default_style") == None
  {
    assert "default" + Suffix == "default_style";
    FirstAtEnd("default", "default_style");
  }

  /** A stem that `sub` leaves whole: no underscore, and not `default`. */
  predicate PlainStem(stem: string) {
    stem != "default" && forall i | 0 <= i < |stem| :: stem[i] != '_'
  }

  /** The method names `<stem>_style`. */
  function WithSuffix(stems: seq<string>): (r: seq<string>)
    ensures |r| == |stems|
  {
    if |stems| == 0 then [] else WithSuffix(stems[..|stems| - 1]) + [stems[|stems| - 1] + Suffix]
  }

  lemma {:induction false} PlainStems(stems: seq<string>)
    requires forall st | st in stems :: PlainStem(st)
    ensures StyleNames(WithSuffix(stems)) == stems
  {
    if |stems| > 0 {
      var init := stems[..|stems| - 1];
      var last := stems[|stems| - 1];
      assert init + [last] == stems;
      assert PlainStem(last) by {
        assert last in stems;
      }
      forall st | st in init
        ensures PlainStem(st)
      {
        assert st in stems;
      }
      PlainStems(init);
      PlainStemName(last);
      assert WithSuffix(stems) == WithSuffix(init) + [last + Suffix];
      StyleNamesAppend(WithSuffix(init), last + Suffix);
    }
  }

  /** `<stem>_style` names the style `<stem>`. */
  lemma PlainStemName(stem: string)
    requires PlainStem(stem)
    ensures StyleName(stem + Suffix) == Some(stem)
  {
    FirstAtEnd(stem, stem + Suffix);
  }

  lemma {:induction false} StyleNamesConcat(a: seq<string>, b: seq<string>)
    ensures StyleNames(a + b) == StyleNames(a) + StyleNames(b)
  {
    if |b| > 0 {
      var init := b[..|b| - 1];
      StyleNamesConcat(a, init);
      assert (a + b)[..|a + b| - 1] == a + init;
    } else {
      assert a + b == a;
    }
  }

  lemma StyleNamesAppend(names: seq<string>, m: string)
    ensures StyleNames(names + [m]) == match StyleName(m)
      case None => StyleNames(names)
      case Some(n) => StyleNames(names) + [n]
  {
    assert (names + [m])[..|names|] == names;
  }


  /** A name without `_` followed by `_style`: the suffix is its first occurrence. */
  lemma FirstAtEnd(stem: string, name: string)
    requires name == stem + Suffix
    requires forall i | 0 <= i < |stem| :: stem[i] != '_'
    ensures EndsWith(name, Suffix) && SubFirst(name, Suffix) == stem
  {
    forall j: nat | j < |stem|
      ensures !OccursAt(name, Suffix, j)
    {
      assert name[j] == stem[j];
    }
    assert OccursAt(name, Suffix, |stem|);
    assert name[..|stem|] == stem;
  }
}
