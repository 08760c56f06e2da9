/** `ThousandIsland::Template`: the merged document options, the body geometry
    left between header and footer, region drawing with the template's own
    content, and the style shortcuts (`h1 "text"`) of its style sheet. */
module Templates {
  import opened Values
  import opened Events
  import opened DeepMerge
  import StyleHashes
  import StyleSheet
  import HeaderComponent
  import FooterComponent
  import BodyComponent

  /** `defaults` */
  function Defaults(): Options {
    map["page_size" := Str("A4"), "page_layout" := Sym("portrait"),
        "left_margin" := Int(54), "right_margin" := Int(54),
        HeaderKey := Hash(map["render" := Bool(true)]),
        FooterKey := Hash(map["render" := Bool(true)]),
        BodyKey := Hash(map[])]
  }

  /** `settings`: empty unless a template subclass overrides it. */
  function DefaultSettings(): (r: Options)
    ensures |r| == 0 && BranchOf(r, HeaderKey) == map[]
  {
    map[]
  }

  /** `component_defaults`, given the defaults of the three component classes and
      the style sheet's `footer_style`, which replaces the footer's `style`. */
  function ComponentDefaults(footerDefaults: Options, headerDefaults: Options, bodyDefaults: Options,
                             footerStyle: StyleHashes.StyleHash): (r: Options)
    ensures r.Keys == {FooterKey, HeaderKey, BodyKey}
    ensures r[FooterKey] == Hash(footerDefaults["style" := Hash(footerStyle.entries)])
    ensures r[HeaderKey] == Hash(headerDefaults) && r[BodyKey] == Hash(bodyDefaults)
  {
    map[FooterKey := Hash(footerDefaults["style" := Hash(footerStyle.entries)]),
        HeaderKey := Hash(headerDefaults),
        BodyKey := Hash(bodyDefaults)]
  }

  /** The component classes a template draws with: `header_klass`,
      `footer_klass` and `body_klass`. */
  datatype ComponentKlass = HeaderKlass | FooterKlass | BodyKlass

  /** `<klass>.defaults`: Footer and Body define the class method; Header
      defines `defaults` only on its instances, so the call raises. */
  function KlassDefaults(k: ComponentKlass): (r: Result<Options>)
    ensures r.Err? <==> k == HeaderKlass
    ensures r.Err? ==> r.error == NoMethodError
    ensures k == FooterKlass ==> r == Ok(FooterComponent.ClassDefaults())
    ensures k == BodyKlass ==> r == Ok(BodyComponent.ClassDefaults())
  {
    match k
    case HeaderKlass => Err(NoMethodError)
    case FooterKlass => Ok(FooterComponent.ClassDefaults())
    case BodyKlass => Ok(BodyComponent.ClassDefaults())
  }

  /** `component_defaults` as written: the class defaults of footer, header
      and body, in that order. */
  function ComponentDefaultsAsWritten(footerStyle: StyleHashes.StyleHash): Result<Options> {
    match KlassDefaults(FooterKlass)
    case Err(e) => Err(e)
    case Ok(footerDefaults) =>
      match KlassDefaults(HeaderKlass)
      case Err(e) => Err(e)
      case Ok(headerDefaults) =>
        match KlassDefaults(BodyKlass)
        case Err(e) => Err(e)
        case Ok(bodyDefaults) => Ok(ComponentDefaults(footerDefaults, headerDefaults, bodyDefaults, footerStyle))
  }

  /** As written, `component_defaults` raises NoMethodError whatever the style
      sheet, and with it every template constructor. */
  lemma ComponentDefaultsAsWrittenRaises(footerStyle: StyleHashes.StyleHash)
    ensures ComponentDefaultsAsWritten(footerStyle) == Err(NoMethodError)
  {
  }

  /** The evidently intended `component_defaults`: the Header's instance
      defaults stand in for the class method it lacks. */
  function StandardComponentDefaults(footerStyle: StyleHashes.StyleHash): Options {
    ComponentDefaults(FooterComponent.ClassDefaults(), HeaderComponent.Defaults(), BodyComponent.ClassDefaults(), footerStyle)
  }

  /** The intended component defaults can be merged, hold the Header's
      defaults and carry the style sheet's footer style. */
  lemma StandardComponentDefaultsShaped(footerStyle: StyleHashes.StyleHash)
    ensures WellShaped(StandardComponentDefaults(footerStyle))
    ensures StandardComponentDefaults(footerStyle)[HeaderKey] == Hash(HeaderComponent.Defaults())
    ensures StandardComponentDefaults(footerStyle)[FooterKey].entries["style"] == Hash(footerStyle.entries)
    ensures StandardComponentDefaults(footerStyle)[FooterKey].entries["height"] == Int(33)
  {
    ComponentDefaultsShaped(FooterComponent.ClassDefaults(), HeaderComponent.Defaults(), BodyComponent.ClassDefaults(), footerStyle);
  }

  /** `setup_document_options`: constructor options over `settings` over
      `defaults` over `component_defaults`. */
  function DocumentOptions(options: Options, settings: Options, componentDefaults: Options): Options {
    Merged([options, settings, Defaults(), componentDefaults])
  }

  /** `setup_document_options(options)`, through the merge as the Ruby code
      performs it, with the template's `settings`, `defaults` and
      `component_defaults` as given. */
  method SetupDocumentOptions(options: Options, settings: Options, defaults: Options, componentDefaults: Options)
    returns (merged: Options)
    requires WellShaped(options) && WellShaped(settings) && WellShaped(defaults) && WellShaped(componentDefaults)
    ensures merged == Merged([options, settings, defaults, componentDefaults]) && Shaped(merged)
  {
    var srcs := [options, settings, defaults, componentDefaults];
    DocumentSourcesShaped(options, settings, defaults, componentDefaults);
    merged := MergeOptions(srcs);
    BranchesAlwaysPresent(srcs);
  }

  /** The three branches of merged options are hashes. */
  predicate Shaped(opts: Options) {
    && HeaderKey in opts && opts[HeaderKey].Hash?
    && FooterKey in opts && opts[FooterKey].Hash?
    && BodyKey in opts && opts[BodyKey].Hash?
  }

  // ---------------------------------------------------------------------------
  // Geometry

  /** Ruby's `a + b` where the options supply both operands. */
  function RubyAdd(a: Value, b: Value): (r: Result<Number>)
    ensures r.Ok? <==> IsNumber(a) && IsNumber(b)
    ensures r.Ok? ==> ToReal(r.value) == ToReal(a) + ToReal(b)
    ensures a.Nil? ==> r == Err(NoMethodError)
  {
    if IsNumber(a) && IsNumber(b) then Ok(Add(a, b))
    else if IsNumber(a) || a.Str? || a.List? then Err(TypeError)
    else Err(NoMethodError)
  }

  /** Space reserved by a region: `height + padding` when it is rendered, else 0. */
  function Space(branch: Options, padding: Key): (r: Result<Number>)
    ensures !Truthy(Lookup(branch, "render")) ==> r.Ok? && r.value == Int(0)
    ensures Truthy(Lookup(branch, "render")) ==> r == RubyAdd(Lookup(branch, "height"), Lookup(branch, padding))
  {
    if Truthy(Lookup(branch, "render")) then RubyAdd(Lookup(branch, "height"), Lookup(branch, padding))
    else Ok(Int(0))
  }

  /** `header_space` */
  function HeaderSpace(opts: Options): Result<Number>
    requires Shaped(opts)
  {
    Space(opts[HeaderKey].entries, "bottom_padding")
  }

  /** `footer_space` */
  function FooterSpace(opts: Options): Result<Number>
    requires Shaped(opts)
  {
    Space(opts[FooterKey].entries, "top_padding")
  }

  /** `body_start`: the page height less the header's space. */
  function BodyStart(opts: Options, bounds: Bounds): (r: Result<Number>)
    requires Shaped(opts)
    ensures r.Ok? <==> HeaderSpace(opts).Ok?
    ensures r.Ok? ==> ToReal(r.value) == ToReal(bounds.height) - ToReal(HeaderSpace(opts).value)
  {
    match HeaderSpace(opts)
    case Err(e) => Err(e)
    case Ok(s) => Ok(Sub(bounds.height, s))
  }

  /** A body start less the footer's space; errors pass through. */
  function LessFooterSpace(start: Result<Number>, opts: Options): (r: Result<Number>)
    requires Shaped(opts)
    ensures r.Ok? <==> start.Ok? && FooterSpace(opts).Ok?
    ensures r.Ok? ==> ToReal(r.value) == ToReal(start.value) - ToReal(FooterSpace(opts).value)
  {
    match start
    case Err(e) => Err(e)
    case Ok(t) =>
      match FooterSpace(opts)
      case Err(e) => Err(e)
      case Ok(s) => Ok(Sub(t, s))
  }

  /** `body_height`: the body start less the footer's space. */
  function BodyHeight(opts: Options, bounds: Bounds): (r: Result<Number>)
    requires Shaped(opts)
    ensures r.Ok? <==> BodyStart(opts, bounds).Ok? && FooterSpace(opts).Ok?
    ensures r.Ok? ==> ToReal(r.value) == ToReal(BodyStart(opts, bounds).value) - ToReal(FooterSpace(opts).value)
  {
    LessFooterSpace(BodyStart(opts, bounds), opts)
  }

  /** The options after `calculate_bounds` wrote `top` into the body branch. */
  function WithBodyTop(opts: Options, top: Number): (r: Options)
    requires Shaped(opts)
    ensures Shaped(r)
  {
    opts[BodyKey := Hash(opts[BodyKey].entries["top" := top])]
  }

  /** The options after `calculate_bounds` wrote `top` and `height`. */
  function WithBodyBounds(opts: Options, top: Number, height: Number): (r: Options)
    requires Shaped(opts)
    ensures Shaped(r)
  {
    var t := WithBodyTop(opts, top);
    t[BodyKey := Hash(t[BodyKey].entries["height" := height])]
  }

  /** Writing the body bounds changes nothing but the body's `top` and `height`. */
  lemma BodyBoundsOnlyTouchBody(opts: Options, top: Number, height: Number, k: Key)
    requires Shaped(opts)
    ensures var r := WithBodyBounds(opts, top, height);
      r.Keys == opts.Keys
      && (k != BodyKey && k in opts ==> r[k] == opts[k])
      && r[BodyKey].entries.Keys == opts[BodyKey].entries.Keys + {"top", "height"}
      && r[BodyKey].entries["top"] == top && r[BodyKey].entries["height"] == height
      && (k != "top" && k != "height" && k in opts[BodyKey].entries ==>
            r[BodyKey].entries[k] == opts[BodyKey].entries[k])
  {
  }

  /** The body starts below the header's reserved space and ends above the
      footer's: in exact arithmetic, `top = page height - header space` and
      `height = top - footer space`. */
  lemma BodyGeometry(opts: Options, bounds: Bounds)
    requires Shaped(opts) && BodyHeight(opts, bounds).Ok?
    ensures var hs := ToReal(HeaderSpace(opts).value);
      var fs := ToReal(FooterSpace(opts).value);
      ToReal(BodyStart(opts, bounds).value) == ToReal(bounds.height) - hs
      && ToReal(BodyHeight(opts, bounds).value) == ToReal(bounds.height) - hs - fs
  {
  }

  /** A region that is not rendered reserves no space; a rendered one reserves
      its height plus its padding. */
  lemma SpaceIsZeroUnlessRendered(branch: Options, padding: Key)
    ensures Space(branch, padding).Ok? && ToReal(Space(branch, padding).value) != 0.0 ==>
      Truthy(Lookup(branch, "render"))
    ensures Truthy(Lookup(branch, "render")) && Space(branch, padding).Ok? ==>
      ToReal(Space(branch, padding).value) == ToReal(Lookup(branch, "height")) + ToReal(Lookup(branch, padding))
  {
  }

  /** An A4 page 840 tall with a 33 + 20 header and a 33 + 20 footer leaves a
      body starting at 787 and 734 tall. */
  lemma A4Example()
    ensures var opts := map[HeaderKey := Hash(map["render" := Bool(true), "height" := Int(33), "bottom_padding" := Int(20)]),
                            FooterKey := Hash(map["render" := Bool(true), "height" := Int(33), "top_padding" := Int(20)]),
                            BodyKey := Hash(map[])];
      BodyStart(opts, Bounds(Int(595), Int(840))).Ok? && BodyStart(opts, Bounds(Int(595), Int(840))).value == Int(787)
      && BodyHeight(opts, Bounds(Int(595), Int(840))).Ok? && BodyHeight(opts, Bounds(Int(595), Int(840))).value == Int(734)
  {
  }

  /** Nothing keeps the body height positive: a page 100 tall with those header
      and footer sizes leaves a body starting at 47 and -6 tall. */
  lemma NegativeHeightExample()
    ensures var opts := map[HeaderKey := Hash(map["render" := Bool(true), "height" := Int(33), "bottom_padding" := Int(20)]),
                            FooterKey := Hash(map["render" := Bool(true), "height" := Int(33), "top_padding" := Int(20)]),
                            BodyKey := Hash(map[])];
      BodyHeight(opts, Bounds(Int(595), Int(100))).Ok? && BodyHeight(opts, Bounds(Int(595), Int(100))).value == Int(-6)
  {
  }

  /** Without a rendered header and footer the body is the whole page. */
  lemma NoHeaderNoFooter(opts: Options, bounds: Bounds)
    requires Shaped(opts)
    requires !Truthy(Lookup(opts[HeaderKey].entries, "render")) && !Truthy(Lookup(opts[FooterKey].entries, "render"))
    ensures BodyStart(opts, bounds) == Ok(Sub(bounds.height, Int(0)))
    ensures ToReal(BodyHeight(opts, bounds).value) == ToReal(bounds.height)
  {
  }

  // ---------------------------------------------------------------------------
  // Option precedence

  lemma DefaultsShaped()
    ensures WellShaped(Defaults())
  {
  }

  lemma DocumentSourcesShaped(options: Options, settings: Options, defaults: Options, componentDefaults: Options)
    requires WellShaped(options) && WellShaped(settings) && WellShaped(defaults) && WellShaped(componentDefaults)
    ensures forall h | h in [options, settings, defaults, componentDefaults] :: WellShaped(h)
  {
  }

  /** A footer default whose numbering options are a hash (or falsy) gives
      well-shaped component defaults. */
  lemma ComponentDefaultsShaped(footerDefaults: Options, headerDefaults: Options, bodyDefaults: Options,
                                footerStyle: StyleHashes.StyleHash)
    requires "numbering_options" in footerDefaults && Truthy(footerDefaults["numbering_options"]) ==>
      footerDefaults["numbering_options"].Hash?
    ensures WellShaped(ComponentDefaults(footerDefaults, headerDefaults, bodyDefaults, footerStyle))
  {
    var r := ComponentDefaults(footerDefaults, headerDefaults, bodyDefaults, footerStyle);
    assert BranchOf(r, FooterKey) == footerDefaults["style" := Hash(footerStyle.entries)];
  }

  /** The defaults give the header no `height` (the Header component reads
      `header_height`), so unless the options or `settings` supply a header,
      a rendered header's space is `nil + nil` and raises NoMethodError. */
  lemma HeaderDefaultsLackHeight(options: Options, settings: Options, footerStyle: StyleHashes.StyleHash)
    requires BranchOf(options, HeaderKey) == map[] && BranchOf(settings, HeaderKey) == map[]
    ensures var opts := DocumentOptions(options, settings, StandardComponentDefaults(footerStyle));
      Shaped(opts) && "height" !in opts[HeaderKey].entries && Truthy(Lookup(opts[HeaderKey].entries, "render"))
      && HeaderSpace(opts).Err? && HeaderSpace(opts).error == NoMethodError
  {
    var cd := StandardComponentDefaults(footerStyle);
    DefaultHeaderBranches(footerStyle);
    HeaderBranchOfFour([options, settings, Defaults(), cd]);
    NoHeightRaises(Merged([options, settings, Defaults(), cd]));
  }

  /** A template that keeps the stock `settings` raises for a rendered header
      unless its options give the header a `height`. */
  lemma StockSettingsHeaderRaises(options: Options, footerStyle: StyleHashes.StyleHash)
    requires BranchOf(options, HeaderKey) == map[]
    ensures var opts := DocumentOptions(options, DefaultSettings(), StandardComponentDefaults(footerStyle));
      HeaderSpace(opts).Err? && HeaderSpace(opts).error == NoMethodError
  {
    HeaderDefaultsLackHeight(options, DefaultSettings(), footerStyle);
  }

  /** The header branches of `defaults` and of the intended component defaults. */
  lemma DefaultHeaderBranches(footerStyle: StyleHashes.StyleHash)
    ensures BranchOf(Defaults(), HeaderKey) == map["render" := Bool(true)]
    ensures "height" !in BranchOf(StandardComponentDefaults(footerStyle), HeaderKey)
  {
    StandardComponentDefaultsShaped(footerStyle);
    assert "height" !in HeaderComponent.Defaults();
  }

  /** A rendered header without `height` cannot be measured. */
  lemma NoHeightRaises(opts: Options)
    requires Shaped(opts) && "height" !in opts[HeaderKey].entries && Truthy(Lookup(opts[HeaderKey].entries, "render"))
    ensures HeaderSpace(opts).Err? && HeaderSpace(opts).error == NoMethodError
  {
  }

  /** The merged header of four sources when only the third supplies `render`
      and none supplies `height`. */
  lemma HeaderBranchOfFour(srcs: seq<Options>)
    requires |srcs| == 4
    requires BranchOf(srcs[0], HeaderKey) == map[] && BranchOf(srcs[1], HeaderKey) == map[]
    requires BranchOf(srcs[2], HeaderKey) == map["render" := Bool(true)]
    requires "height" !in BranchOf(srcs[3], HeaderKey)
    ensures var opts := Merged(srcs);
      Shaped(opts) && "height" !in opts[HeaderKey].entries && Lookup(opts[HeaderKey].entries, "render") == Bool(true)
  {
    BranchesAlwaysPresent(srcs);
    var b := Branches(srcs, HeaderKey);
    assert Merged(srcs)[HeaderKey].entries == Overlay(b) by {
      NoNestedKeysMerge(srcs, HeaderKey);
    }
    forall i | 0 <= i < 4
      ensures b[i] == BranchOf(srcs[i], HeaderKey)
    {
      BranchesAt(srcs, HeaderKey, i);
    }
    OverlayRenderOnly(b);
  }

  /** Overlaying four hashes of which only the third holds `render` and none
      holds `height`. */
  lemma OverlayRenderOnly(b: seq<Options>)
    requires |b| == 4 && b[0] == map[] && b[1] == map[] && b[2] == map["render" := Bool(true)]
    requires "height" !in b[3]
    ensures "height" !in Overlay(b) && "render" in Overlay(b) && Overlay(b)["render"] == Bool(true)
  {
    OverlayIsWinner(b, "height");
    OverlayIsWinner(b, "render");
    WinnerExists(b, "height");
    WinnerIsFirst(b, "render", 2);
  }

  /** For a top-level key other than the branches, the constructor's options win
      over `settings`, which win over `defaults`, which win over the component defaults. */
  lemma OptionPrecedence(options: Options, settings: Options, componentDefaults: Options, k: Key)
    requires k != HeaderKey && k != FooterKey && k != BodyKey
    ensures var m := DocumentOptions(options, settings, componentDefaults);
      && (k in options ==> k in m && m[k] == options[k])
      && (k !in options && k in settings ==> k in m && m[k] == settings[k])
      && (k !in options && k !in settings && k in Defaults() ==> k in m && m[k] == Defaults()[k])
      && (k !in options && k !in settings && k !in Defaults() ==>
            (k in m <==> k in componentDefaults) && (k in m ==> m[k] == componentDefaults[k]))
  {
    var srcs := [options, settings, Defaults(), componentDefaults];
    TopLevelPrecedence(srcs, k);
    assert srcs[1..][1..][1..][1..] == [];
    assert Winner(srcs, k) == if k in options then Some(options[k]) else Winner(srcs[1..], k);
    assert Winner(srcs[1..], k) == if k in settings then Some(settings[k]) else Winner(srcs[1..][1..], k);
    assert Winner(srcs[1..][1..], k) == if k in Defaults() then Some(Defaults()[k]) else Winner(srcs[1..][1..][1..], k);
    assert Winner(srcs[1..][1..][1..], k) == if k in componentDefaults then Some(componentDefaults[k]) else None;
  }

  /** A top-level key of the merge of four sources comes from the first source
      that defines it. */
  lemma PrecedenceOfFour(srcs: seq<Options>, k: Key)
    requires |srcs| == 4 && k != HeaderKey && k != FooterKey && k != BodyKey
    ensures var m := Merged(srcs);
      && (k in srcs[0] ==> k in m && m[k] == srcs[0][k])
      && (k !in srcs[0] && k in srcs[1] ==> k in m && m[k] == srcs[1][k])
      && (k !in srcs[0] && k !in srcs[1] && k in srcs[2] ==> k in m && m[k] == srcs[2][k])
      && (k !in srcs[0] && k !in srcs[1] && k !in srcs[2] ==>
            (k in m <==> k in srcs[3]) && (k in m ==> m[k] == srcs[3][k]))
  {
    TopLevelPrecedence(srcs, k);
    assert srcs[1..][1..][1..][1..] == [];
    assert Winner(srcs, k) == if k in srcs[0] then Some(srcs[0][k]) else Winner(srcs[1..], k);
    assert Winner(srcs[1..], k) == if k in srcs[1] then Some(srcs[1][k]) else Winner(srcs[1..][1..], k);
    assert Winner(srcs[1..][1..], k) == if k in srcs[2] then Some(srcs[2][k]) else Winner(srcs[1..][1..][1..], k);
    assert Winner(srcs[1..][1..][1..], k) == if k in srcs[3] then Some(srcs[3][k]) else None;
  }

  /** The example of the test file: options `{op_one: 1, op_two: 2}` over
      defaults `{op_two: 22, op_three: 3}` give `op_one` 1, `op_two` 2 and
      `op_three` 3; the merge also adds the header, footer and body branches,
      which the test's expected hash leaves out. */
  lemma SetupExample(options: Options, defaults: Options)
    requires options == map["op_one" := Int(1), "op_two" := Int(2)]
    requires defaults == map["op_two" := Int(22), "op_three" := Int(3)]
    ensures var m := Merged([options, DefaultSettings(), defaults, map[]]);
      Lookup(m, "op_one") == Int(1) && Lookup(m, "op_two") == Int(2) && Lookup(m, "op_three") == Int(3)
      && HeaderKey in m && FooterKey in m && BodyKey in m
  {
    SetupExampleWith(options, DefaultSettings(), defaults);
  }

  /** The test's example, for any `settings` that adds no keys. */
  lemma SetupExampleWith(options: Options, settings: Options, defaults: Options)
    requires options == map["op_one" := Int(1), "op_two" := Int(2)]
    requires settings == map[]
    requires defaults == map["op_two" := Int(22), "op_three" := Int(3)]
    ensures var m := Merged([options, settings, defaults, map[]]);
      Lookup(m, "op_one") == Int(1) && Lookup(m, "op_two") == Int(2) && Lookup(m, "op_three") == Int(3)
      && HeaderKey in m && FooterKey in m && BodyKey in m
  {
    var srcs := [options, settings, defaults, map[]];
    assert |"op_three"| != |"op_one"| == |"op_two"|;
    assert "op_three" !in options && "op_three" in defaults;
    PrecedenceOfFour(srcs, "op_one");
    PrecedenceOfFour(srcs, "op_two");
    PrecedenceOfFour(srcs, "op_three");
    BranchesAlwaysPresent(srcs);
  }

  /** With the footer defaults of the Footer class, the merged footer style
      starts from the style sheet's `footer_style`. */
  lemma FooterStyleFromStyleSheet(footerDefaults: Options, headerDefaults: Options, bodyDefaults: Options,
                                  footerStyle: StyleHashes.StyleHash)
    ensures ComponentDefaults(footerDefaults, headerDefaults, bodyDefaults, footerStyle)[FooterKey].entries["style"]
         == Hash(footerStyle.entries)
  {
  }

  // ---------------------------------------------------------------------------
  // Style shortcuts

  /** `respond_to_missing?(name)`: the name is one of the available styles. */
  predicate RespondToMissing(name: string) {
    name in StyleSheet.StyleNames(StyleSheet.StyleMethods)
  }

  /** `render_with_style(style, output)`: `text(output, <style>_style)`. */
  function RenderWithStyle(style: StyleHashes.StyleHash, output: Value): (r: seq<Event>)
    ensures r == [Text(output, style)]
  {
    [Text(output, style)]
  }

  /** `method_missing(name, *arguments)`: when the template has a method
      `<name>_style`, the first argument is written as text in that style;
      otherwise Ruby's NoMethodError. `base` is the style sheet's `default_style`. */
  function MethodMissing(base: StyleHashes.StyleHash, name: string, arguments: seq<Value>): (r: Result<seq<Event>>)
    ensures StyleSheet.StyleFor(base, name).None? ==> r == Err(NoMethodError)
    ensures StyleSheet.StyleFor(base, name).Some? && StyleSheet.StyleFor(base, name).value.Ok? ==>
      r == Ok([Text(if |arguments| > 0 then arguments[0] else Nil, StyleSheet.StyleFor(base, name).value.value)])
    ensures StyleSheet.StyleFor(base, name).Some? && StyleSheet.StyleFor(base, name).value.Err? ==>
      r == Err(StyleSheet.StyleFor(base, name).value.error)
  {
    match StyleSheet.StyleFor(base, name)
    case None => Err(NoMethodError)
    case Some(Err(e)) => Err(e)
    case Some(Ok(style)) => Ok(RenderWithStyle(style, if |arguments| > 0 then arguments[0] else Nil))
  }

  /** Apart from `default`, a name is a style shortcut exactly when it is an
      available style. */
  lemma ShortcutIffAvailable(base: StyleHashes.StyleHash, name: string)
    requires name != "default"
    ensures StyleSheet.StyleFor(base, name).Some? <==> RespondToMissing(name)
  {
    StyleSheet.DefaultAvailableStyles();
  }

  /** `h1 'Test Text'` writes the text in `h1_style`. */
  lemma H1Shortcut(base: StyleHashes.StyleHash)
    requires StyleSheet.H1Style(base).Ok?
    ensures RespondToMissing("h1")
    ensures MethodMissing(base, "h1", [Str("Test Text")]) == Ok([Text(Str("Test Text"), StyleSheet.H1Style(base).value)])
  {
    StyleSheet.DefaultAvailableStyles();
  }

  /** `h9` is not a style shortcut: it is not reported and raises NoMethodError. */
  lemma H9NotShortcut(base: StyleHashes.StyleHash)
    ensures !RespondToMissing("h9")
    ensures MethodMissing(base, "h9", [Str("Test Text")]) == Err(NoMethodError)
  {
    StyleSheet.DefaultAvailableStyles();
    var names := StyleSheet.StyleNames(StyleSheet.StyleMethods);
    assert forall m | m in names && |m| == 2 :: m[1] != '9';
  }

  /** `default` is not reported by `respond_to?`, yet `default 'x'` still writes
      text, because `method_missing` looks for a `default_style` method. */
  lemma DefaultShortcutDisagrees(base: StyleHashes.StyleHash)
    ensures !RespondToMissing("default")
    ensures MethodMissing(base, "default", [Str("x")]) == Ok([Text(Str("x"), base)])
  {
    StyleSheet.DefaultAvailableStyles();
    var names := StyleSheet.StyleNames(StyleSheet.StyleMethods);
    assert forall m | m in names :: |m| <= 6;
    assert |"default"| == 7;
  }

  // ---------------------------------------------------------------------------
  // The template object

  /** Events of the content a region draws: the template's content and the
      caller's block, in the given order. */
  function Content(first: Option<seq<Event>>, second: Option<seq<Event>>): (r: seq<Event>)
    ensures |r| == |Contents(first)| + |Contents(second)|
    ensures r[..|Contents(first)|] == Contents(first) && r[|Contents(first)|..] == Contents(second)
  {
    Contents(first) + Contents(second)
  }

  class Template {
    /** `pdf_options` */
    var pdfOptions: Options
    /** `pdf.bounds` of the Prawn document made from the options */
    var bounds: Bounds
    /** `@body_start` and `@body_height` */
    var bodyStart: Option<Number>
    var bodyHeight: Option<Number>
    /** The template's `header_content`, `body_content` and `footer_content`
        when it defines them, as the events they issue. */
    const headerContent: Option<seq<Event>>
    const bodyContent: Option<seq<Event>>
    const footerContent: Option<seq<Event>>
    /** `default_style` of the template's style sheet, which its style
        shortcuts scale */
    const defaultStyle: StyleHashes.StyleHash

    predicate Valid()
      reads this
    {
      Shaped(pdfOptions)
    }

    /** `setup_document_options(options)` and `setup_prawn_document`, with the
        results of the template's `settings`, `defaults` and `component_defaults`
        methods as parameters; `bounds` are those of the document the renderer
        makes from the options. */
    constructor (options: Options, settings: Options, defaults: Options, componentDefaults: Options, bounds: Bounds,
                 headerContent: Option<seq<Event>>, bodyContent: Option<seq<Event>>, footerContent: Option<seq<Event>>,
                 defaultStyle: StyleHashes.StyleHash)
      requires WellShaped(options) && WellShaped(settings) && WellShaped(defaults) && WellShaped(componentDefaults)
      ensures Valid()
      ensures pdfOptions == Merged([options, settings, defaults, componentDefaults])
      ensures this.bounds == bounds && bodyStart == None && bodyHeight == None
      ensures this.headerContent == headerContent && this.bodyContent == bodyContent && this.footerContent == footerContent
      ensures this.defaultStyle == defaultStyle
    {
      this.defaultStyle := defaultStyle;
      this.headerContent := headerContent;
      this.bodyContent := bodyContent;
      this.footerContent := footerContent;
      var merged := SetupDocumentOptions(options, settings, defaults, componentDefaults);
      pdfOptions := merged;
      this.bounds := bounds;
      bodyStart := None;
      bodyHeight := None;
    }

    /** `body_start`: memoised in `@body_start`. */
    method GetBodyStart() returns (r: Result<Number>)
      requires Valid()
      modifies this
      ensures Valid() && pdfOptions == old(pdfOptions) && bounds == old(bounds) && bodyHeight == old(bodyHeight)
      ensures old(bodyStart).Some? ==> r == Ok(old(bodyStart).value) && bodyStart == old(bodyStart)
      ensures old(bodyStart).None? ==> r == BodyStart(pdfOptions, bounds)
      ensures old(bodyStart).None? ==> bodyStart == if r.Ok? then Some(r.value) else None
    {
      if bodyStart.Some? {
        return Ok(bodyStart.value);
      }
      r := BodyStart(pdfOptions, bounds);
      if r.Ok? {
        bodyStart := Some(r.value);
      }
    }

    /** `body_height`: memoised in `@body_height`. */
    method GetBodyHeight() returns (r: Result<Number>)
      requires Valid()
      modifies this
      ensures Valid() && pdfOptions == old(pdfOptions) && bounds == old(bounds)
      ensures old(bodyHeight).Some? ==> r == Ok(old(bodyHeight).value) && unchanged(this)
      ensures old(bodyHeight).None? && old(bodyStart).None? ==> r == BodyHeight(pdfOptions, bounds)
      ensures old(bodyHeight).None? && old(bodyStart).Some? ==> r == LessFooterSpace(Ok(old(bodyStart).value), pdfOptions)
      ensures old(bodyHeight).None? ==> bodyHeight == if r.Ok? then Some(r.value) else None
      ensures old(bodyHeight).None? && old(bodyStart).Some? ==> bodyStart == old(bodyStart)
      ensures old(bodyHeight).None? && old(bodyStart).None? ==>
        bodyStart == if BodyStart(pdfOptions, bounds).Ok? then Some(BodyStart(pdfOptions, bounds).value) else None
    {
      if bodyHeight.Some? {
        return Ok(bodyHeight.value);
      }
      var start := GetBodyStart();
      if start.Err? {
        return Err(start.error);
      }
      var space := FooterSpace(pdfOptions);
      if space.Err? {
        return Err(space.error);
      }
      r := Ok(Sub(start.value, space.value));
      bodyHeight := Some(r.value);
    }

    /** `calculate_bounds`: writes `top`, then `height`, into the body options.
        A failure leaves what was written before it. */
    method CalculateBounds() returns (err: Option<Error>)
      requires Valid() && bodyStart == None && bodyHeight == None
      modifies this
      ensures Valid() && bounds == old(bounds)
      ensures BodyStart(old(pdfOptions), bounds).Err? ==>
        err == Some(BodyStart(old(pdfOptions), bounds).error) && pdfOptions == old(pdfOptions)
      ensures BodyStart(old(pdfOptions), bounds).Ok? && BodyHeight(old(pdfOptions), bounds).Err? ==>
        err == Some(BodyHeight(old(pdfOptions), bounds).error)
        && pdfOptions == WithBodyTop(old(pdfOptions), BodyStart(old(pdfOptions), bounds).value)
      ensures BodyHeight(old(pdfOptions), bounds).Ok? ==>
        err == None
        && pdfOptions == WithBodyBounds(old(pdfOptions), BodyStart(old(pdfOptions), bounds).value,
                                        BodyHeight(old(pdfOptions), bounds).value)
      ensures bodyStart == if BodyStart(old(pdfOptions), bounds).Ok?
        then Some(BodyStart(old(pdfOptions), bounds).value) else None
      ensures bodyHeight == if BodyHeight(old(pdfOptions), bounds).Ok?
        then Some(BodyHeight(old(pdfOptions), bounds).value) else None
    {
      ghost var opts := pdfOptions;
      var top := GetBodyStart();
      if top.Err? {
        return Some(top.error);
      }
      pdfOptions := WithBodyTop(pdfOptions, top.value);
      assert HeaderSpace(pdfOptions) == HeaderSpace(opts) && FooterSpace(pdfOptions) == FooterSpace(opts);
      var height := GetBodyHeight();
      if height.Err? {
        return Some(height.error);
      }
      pdfOptions := pdfOptions[BodyKey := Hash(pdfOptions[BodyKey].entries["height" := height.value])];
      err := None;
    }

    /** `render_header?` */
    function RenderHeader(): Value
      requires Valid()
      reads this
    {
      Lookup(pdfOptions[HeaderKey].entries, "render")
    }

    /** `render_footer?` */
    function RenderFooter(): Value
      requires Valid()
      reads this
    {
      Lookup(pdfOptions[FooterKey].entries, "render")
    }

    /** `draw_header`: the header component drawn with `header_content` (when the
        template defines it) and then the caller's block; nothing when the header
        is not rendered. */
    function DrawHeader(block: Option<seq<Event>>): (r: seq<Event>)
      requires Valid()
      reads this
      ensures !Truthy(RenderHeader()) ==> r == []
      ensures Truthy(RenderHeader()) ==> r == HeaderComponent.Draw(HeaderComponent.New(pdfOptions[HeaderKey].entries),
                                                                   bounds, Some(Content(headerContent, block)))
    {
      if Truthy(RenderHeader()) then
        HeaderComponent.Draw(HeaderComponent.New(pdfOptions[HeaderKey].entries), bounds, Some(Content(headerContent, block)))
      else []
    }

    /** `draw_footer`: the footer component drawn with the caller's block first
        and then `footer_content`; nothing when the footer is not rendered.
        `supported` are the style keys the renderer responds to. */
    function DrawFooter(block: Option<seq<Event>>, supported: set<Key>): (r: Result<seq<Event>>)
      requires Valid()
      reads this
      ensures !Truthy(RenderFooter()) ==> r == Ok([])
      ensures Truthy(RenderFooter()) ==> r == FooterComponent.Draw(FooterComponent.New(pdfOptions[FooterKey].entries),
                                                                   bounds, Some(Content(block, footerContent)), supported)
    {
      if Truthy(RenderFooter()) then
        FooterComponent.Draw(FooterComponent.New(pdfOptions[FooterKey].entries), bounds, Some(Content(block, footerContent)), supported)
      else Ok([])
    }

    /** `draw_body`: the body component drawn with `body_content` and then the
        caller's block, using the body's intended draw-once behaviour. */
    function DrawBody(block: Option<seq<Event>>): (r: Result<seq<Event>>)
      requires Valid()
      reads this
      ensures r == Ok(BodyComponent.Render(BodyComponent.New(pdfOptions[BodyKey].entries), bounds,
                                           Some(Content(bodyContent, block))))
    {
      BodyComponent.DrawOnce(BodyComponent.New(pdfOptions[BodyKey].entries), bounds, Some(Content(bodyContent, block)))
    }

    /** `draw_body` as written: Body has no `repeated?`, so it raises. */
    function DrawBodyAsWritten(block: Option<seq<Event>>): (r: Result<seq<Event>>)
      requires Valid()
      reads this
    {
      BodyComponent.Draw(BodyComponent.New(pdfOptions[BodyKey].entries), bounds, Some(Content(bodyContent, block)))
    }

    /** As written, drawing the body of any template raises NotImplementedError. */
    lemma DrawBodyAsWrittenRaises(block: Option<seq<Event>>)
      requires Valid()
      ensures DrawBodyAsWritten(block) == Err(NotImplementedError)
    {
      BodyComponent.DrawRaises(BodyComponent.New(pdfOptions[BodyKey].entries), bounds, Some(Content(bodyContent, block)));
    }

    /** The body box holds the template's `body_content` before the caller's block. */
    lemma BodyContentFirst(block: Option<seq<Event>>)
      requires Valid()
      ensures DrawBody(block).value[0].inner == Contents(bodyContent) + Contents(block)
    {
    }

    /** The header box holds the template's `header_content` before the caller's
        block, whether or not the header is repeated. */
    lemma HeaderContentFirst(block: Option<seq<Event>>)
      requires Valid() && Truthy(RenderHeader())
      ensures var r := DrawHeader(block);
        var box := if r[0].RepeatAll? then r[0].inner[0] else r[0];
        |r| == 1 && box.BoundingBox? && box.inner == Contents(headerContent) + Contents(block)
    {
    }

    /** The footer's middle column holds the caller's block before the template's
        `footer_content`, after the style calls. */
    lemma FooterBlockFirst(block: Option<seq<Event>>, supported: set<Key>)
      requires Valid() && Truthy(RenderFooter())
      requires DrawFooter(block, supported).Ok?
      ensures var r := DrawFooter(block, supported).value;
        var outer := if r[0].RepeatAll? then r[0].inner[0] else r[0];
        |r| == 1 && outer.BoundingBox? && |outer.inner| == 2
        && outer.inner[0].inner[1..] == Contents(block) + Contents(footerContent)
    {
      var f := FooterComponent.New(pdfOptions[FooterKey].entries);
      var content := Some(Content(block, footerContent));
      FooterComponent.RenderLayout(f, bounds, content, supported);
    }
  }

  /** The exception `Template.new(options)` raises while it computes the body
      bounds, if any: the header's space is computed before the footer's. */
  function NewTemplateError(options: Options, settings: Options, componentDefaults: Options, bounds: Bounds)
    : (r: Option<Error>)
    ensures var opts := DocumentOptions(options, settings, componentDefaults);
      Shaped(opts)
      && (r.None? <==> BodyHeight(opts, bounds).Ok?)
      && (BodyStart(opts, bounds).Err? ==> r == Some(BodyStart(opts, bounds).error))
      && (BodyStart(opts, bounds).Ok? && FooterSpace(opts).Err? ==> r == Some(FooterSpace(opts).error))
  {
    BranchesAlwaysPresent([options, settings, Defaults(), componentDefaults]);
    match BodyHeight(DocumentOptions(options, settings, componentDefaults), bounds)
    case Ok(_) => None
    case Err(e) => Some(e)
  }

  /** `Template.new(options)`: merge the options, make the document and compute
      the body bounds; a failure to compute them is raised from the constructor. */
  method NewTemplate(options: Options, settings: Options, componentDefaults: Options, bounds: Bounds,
                     headerContent: Option<seq<Event>>, bodyContent: Option<seq<Event>>, footerContent: Option<seq<Event>>,
                     defaultStyle: StyleHashes.StyleHash)
    returns (r: Result<Template>)
    requires WellShaped(options) && WellShaped(settings) && WellShaped(componentDefaults)
    ensures var opts := DocumentOptions(options, settings, componentDefaults);
      Shaped(opts)
      && (r.Ok? <==> BodyHeight(opts, bounds).Ok?)
      && (r.Err? ==> Some(r.error) == NewTemplateError(options, settings, componentDefaults, bounds))
    ensures r.Ok? ==> (fresh(r.value) && r.value.Valid() && r.value.bounds == bounds
      && r.value.headerContent == headerContent && r.value.bodyContent == bodyContent
      && r.value.footerContent == footerContent && r.value.defaultStyle == defaultStyle
      && r.value.bodyStart == Some(BodyStart(DocumentOptions(options, settings, componentDefaults), bounds).value)
      && r.value.bodyHeight == Some(BodyHeight(DocumentOptions(options, settings, componentDefaults), bounds).value)
      && r.value.pdfOptions == WithBodyBounds(DocumentOptions(options, settings, componentDefaults),
           BodyStart(DocumentOptions(options, settings, componentDefaults), bounds).value,
           BodyHeight(DocumentOptions(options, settings, componentDefaults), bounds).value))
  {
    DefaultsShaped();
    var t := new Template(options, settings, Defaults(), componentDefaults, bounds, headerContent, bodyContent, footerContent,
                          defaultStyle);
    var err := t.CalculateBounds();
    if err.Some? {
      return Err(err.value);
    }
    return Ok(t);
  }
}
