/** Worked examples of the option merge, on concrete option hashes. */
module DeepMergeExamples {
  import opened Values
  import opened DeepMerge

  /** A footer key other than the two listed ones is replaced wholesale: the lower
      source's nested entries do not show through. */
  lemma UnlistedNestedReplacedWholesale()
    ensures var m := Merged([map["footer" := Hash(map["extra" := Hash(map["a" := Int(1)])])],
                             map["footer" := Hash(map["extra" := Hash(map["b" := Int(2)])])]]);
            m[FooterKey].entries["extra"] == Hash(map["a" := Int(1)])
  {
    var srcs := [map["footer" := Hash(map["extra" := Hash(map["a" := Int(1)])])],
                 map["footer" := Hash(map["extra" := Hash(map["b" := Int(2)])])]];
    BranchPrecedence(srcs, FooterKey, "extra");
    assert Branches(srcs, FooterKey)[0] == map["extra" := Hash(map["a" := Int(1)])];
  }

  /** The three sources of the worked merge example, highest precedence first. */
  function ExampleOver(): Options {
    map["header" := Hash(map["height" := Int(50), "repeated" := Bool(true)]),
        "footer" := Hash(map["height" := Int(50), "repeated" := Bool(false),
                             "numbering_options" := Hash(map["align" := Sym("left")]),
                             "style" := Hash(map["font_size" := Int(5)])])]
  }

  function ExampleOptions(): Options {
    map["header" := Hash(map["height" := Int(33), "repeated" := Bool(false)]),
        "footer" := Hash(map["height" := Int(40), "repeated" := Bool(true),
                             "numbering_options" := Hash(map["align" := Sym("right"), "start_count_at" := Int(2)])])]
  }

  function ExampleDefault(): Options {
    map["header" := Hash(map["height" := Int(33), "repeated" := Bool(true)]),
        "footer" := Hash(map["height" := Int(33), "repeated" := Bool(true),
                             "numbering_options" := Hash(map["align" := Sym("right"), "start_count_at" := Int(1)]),
                             "number_pages" := Bool(true),
                             "numbering_string" := Str("<page>"),
                             "style" := Hash(map["font_size" := Int(23)])])]
  }

  function ExampleSources(): seq<Options> {
    [ExampleOver(), ExampleOptions(), ExampleDefault()]
  }

  lemma ExampleFooterBranch()
    ensures Overlay(Branches(ExampleSources(), FooterKey)) == map[
      "height" := Int(50), "repeated" := Bool(false),
      "numbering_options" := Hash(map["align" := Sym("left")]),
      "number_pages" := Bool(true),
      "numbering_string" := Str("<page>"),
      "style" := Hash(map["font_size" := Int(5)])]
  {
    var f0 := ExampleOver()[FooterKey].entries;
    var f1 := ExampleOptions()[FooterKey].entries;
    var f2 := ExampleDefault()[FooterKey].entries;
    BranchesOfThree(ExampleSources(), FooterKey);
    TwoBranches(ExampleOver(), ExampleOver()[HeaderKey].entries, f0);
    TwoBranches(ExampleOptions(), ExampleOptions()[HeaderKey].entries, f1);
    TwoBranches(ExampleDefault(), ExampleDefault()[HeaderKey].entries, f2);
    ShadowedMiddle(f2, f1, f0);
    OverrideFourOfSix("height", "repeated", "numbering_options", "number_pages", "numbering_string", "style",
      Int(33), Bool(true), Hash(map["align" := Sym("right"), "start_count_at" := Int(1)]), Bool(true), Str("<page>"),
      Hash(map["font_size" := Int(23)]),
      Int(50), Bool(false), Hash(map["align" := Sym("left")]), Hash(map["font_size" := Int(5)]));
  }

  /** A middle hash whose keys the top hash all overrides does not show. */
  lemma ShadowedMiddle(low: Options, middle: Options, top: Options)
    requires middle.Keys <= top.Keys
    ensures low + middle + top == low + top
  {
  }

  lemma OverrideFourOfSix(k1: Key, k2: Key, k3: Key, k4: Key, k5: Key, k6: Key,
                          v1: Value, v2: Value, v3: Value, v4: Value, v5: Value, v6: Value,
                          w1: Value, w2: Value, w3: Value, w6: Value)
    requires k4 != k1 && k4 != k2 && k4 != k3 && k4 != k6
    requires k5 != k1 && k5 != k2 && k5 != k3 && k5 != k6
    ensures map[k1 := v1, k2 := v2, k3 := v3, k4 := v4, k5 := v5, k6 := v6] + map[k1 := w1, k2 := w2, k3 := w3, k6 := w6]
         == map[k1 := w1, k2 := w2, k3 := w3, k4 := v4, k5 := v5, k6 := w6]
  {
    var l := map[k1 := v1, k2 := v2, k3 := v3, k4 := v4, k5 := v5, k6 := v6] + map[k1 := w1, k2 := w2, k3 := w3, k6 := w6];
    var r := map[k1 := w1, k2 := w2, k3 := w3, k4 := v4, k5 := v5, k6 := w6];
    assert l.Keys == r.Keys;
    forall k | k in l
      ensures l[k] == r[k]
    {
      if k == k6 {
      } else if k == k3 {
      } else if k == k2 {
      } else if k == k1 {
      }
    }
  }

  lemma ExampleHeader()
    ensures MergeForKey(ExampleSources(), HeaderKey, []) == map["height" := Int(50), "repeated" := Bool(true)]
  {
    var srcs := ExampleSources();
    NoNestedKeysMerge(srcs, HeaderKey);
    BranchesOfThree(srcs, HeaderKey);
    ExampleBranches();
    TwoKeysOverlay("height", "repeated", Int(33), Bool(true), Int(33), Bool(false), Int(50), Bool(true));
  }

  /** The header and body branches of the three example sources. */
  lemma ExampleBranches()
    ensures BranchOf(ExampleOver(), HeaderKey) == map["height" := Int(50), "repeated" := Bool(true)]
    ensures BranchOf(ExampleOptions(), HeaderKey) == map["height" := Int(33), "repeated" := Bool(false)]
    ensures BranchOf(ExampleDefault(), HeaderKey) == map["height" := Int(33), "repeated" := Bool(true)]
    ensures BranchOf(ExampleOver(), BodyKey) == map[] && BranchOf(ExampleOptions(), BodyKey) == map[]
    ensures BranchOf(ExampleDefault(), BodyKey) == map[]
  {
    TwoBranches(ExampleOver(), ExampleOver()[HeaderKey].entries, ExampleOver()[FooterKey].entries);
    TwoBranches(ExampleOptions(), ExampleOptions()[HeaderKey].entries, ExampleOptions()[FooterKey].entries);
    TwoBranches(ExampleDefault(), ExampleDefault()[HeaderKey].entries, ExampleDefault()[FooterKey].entries);
  }

  /** Three hashes over the same two keys overlay to the last one. */
  lemma TwoKeysOverlay(a: Key, b: Key, x0: Value, y0: Value, x1: Value, y1: Value, x2: Value, y2: Value)
    ensures map[a := x0, b := y0] + map[a := x1, b := y1] + map[a := x2, b := y2] == map[a := x2, b := y2]
  {
  }

  lemma ExampleBody()
    ensures MergeForKey(ExampleSources(), BodyKey, []) == map[]
  {
    var srcs := ExampleSources();
    NoNestedKeysMerge(srcs, BodyKey);
    BranchesOfThree(srcs, BodyKey);
    ExampleBranches();
    MergeEmpty(map[]);
  }
  lemma ExampleNumberingOptions()
    ensures Overlay(Nested(ExampleSources(), FooterKey, "numbering_options"))
      == map["align" := Sym("left"), "start_count_at" := Int(2)]
  {
    var srcs := ExampleSources();
    NestedOfThree(srcs, FooterKey, "numbering_options");
    ExampleNested("numbering_options");
    OverrideOneKey("align", "start_count_at", Sym("right"), Int(1), Sym("right"), Int(2), Sym("left"));
  }

  /** The nested footer hashes of the three example sources. */
  lemma ExampleNested(n: Key)
    ensures NestedOf(ExampleOver(), FooterKey, n) == NestedIn(ExampleOver()[FooterKey].entries, n)
    ensures NestedOf(ExampleOptions(), FooterKey, n) == NestedIn(ExampleOptions()[FooterKey].entries, n)
    ensures NestedOf(ExampleDefault(), FooterKey, n) == NestedIn(ExampleDefault()[FooterKey].entries, n)
    ensures n == "numbering_options" ==>
      && NestedIn(ExampleOver()[FooterKey].entries, n) == map["align" := Sym("left")]
      && NestedIn(ExampleOptions()[FooterKey].entries, n) == map["align" := Sym("right"), "start_count_at" := Int(2)]
      && NestedIn(ExampleDefault()[FooterKey].entries, n) == map["align" := Sym("right"), "start_count_at" := Int(1)]
    ensures n == "style" ==>
      && NestedIn(ExampleOver()[FooterKey].entries, n) == map["font_size" := Int(5)]
      && NestedIn(ExampleOptions()[FooterKey].entries, n) == map[]
      && NestedIn(ExampleDefault()[FooterKey].entries, n) == map["font_size" := Int(23)]
  {
    TwoBranches(ExampleOver(), ExampleOver()[HeaderKey].entries, ExampleOver()[FooterKey].entries);
    TwoBranches(ExampleOptions(), ExampleOptions()[HeaderKey].entries, ExampleOptions()[FooterKey].entries);
    TwoBranches(ExampleDefault(), ExampleDefault()[HeaderKey].entries, ExampleDefault()[FooterKey].entries);
  }

  /** The nested hash `b[n]` of a branch `b`, or `{}`. */
  function NestedIn(b: Options, n: Key): Options {
    if n in b && b[n].Hash? then b[n].entries else map[]
  }

  /** A source with only a header and a footer hash: its branches and nested
      footer hashes. */
  lemma TwoBranches(m: Options, hb: Options, fb: Options)
    requires m == map[HeaderKey := Hash(hb), FooterKey := Hash(fb)]
    ensures BranchOf(m, HeaderKey) == hb && BranchOf(m, FooterKey) == fb && BranchOf(m, BodyKey) == map[]
    ensures forall n :: NestedOf(m, FooterKey, n) == NestedIn(fb, n)
  {
  }

  lemma OverrideOneKey(a: Key, b: Key, x0: Value, y0: Value, x1: Value, y1: Value, x2: Value)
    requires a != b
    ensures map[a := x0, b := y0] + map[a := x1, b := y1] + map[a := x2] == map[a := x2, b := y1]
  {
  }

  lemma ExampleStyle()
    ensures Overlay(Nested(ExampleSources(), FooterKey, "style")) == map["font_size" := Int(5)]
  {
    NestedOfThree(ExampleSources(), FooterKey, "style");
    ExampleNested("style");
    OverrideSingle("font_size", Int(23), Int(5));
  }

  lemma OverrideSingle(k: Key, a: Value, b: Value)
    ensures map[k := a] + map[] + map[k := b] == map[k := b]
  {
  }

  lemma ExampleFooter()
    ensures MergeForKey(ExampleSources(), FooterKey, FooterNestedKeys) == map[
      "height" := Int(50), "repeated" := Bool(false),
      "numbering_options" := Hash(map["align" := Sym("left"), "start_count_at" := Int(2)]),
      "number_pages" := Bool(true),
      "numbering_string" := Str("<page>"),
      "style" := Hash(map["font_size" := Int(5)])]
  {
    ExampleFooterBranch();
    ExampleNumberingOptions();
    ExampleStyle();
    FooterAsTwoParts(ExampleSources());
    UpdateTwoOfSix("height", "repeated", "numbering_options", "number_pages", "numbering_string", "style",
      Int(50), Bool(false), Hash(map["align" := Sym("left")]), Bool(true), Str("<page>"), Hash(map["font_size" := Int(5)]),
      Hash(map["align" := Sym("left"), "start_count_at" := Int(2)]), Hash(map["font_size" := Int(5)]));
  }

  lemma UpdateTwoOfSix(k1: Key, k2: Key, k3: Key, k4: Key, k5: Key, k6: Key,
                       v1: Value, v2: Value, v3: Value, v4: Value, v5: Value, v6: Value, w3: Value, w6: Value)
    requires k3 != k4 && k3 != k5 && k3 != k6
    ensures map[k1 := v1, k2 := v2, k3 := v3, k4 := v4, k5 := v5, k6 := v6][k3 := w3][k6 := w6]
         == map[k1 := v1, k2 := v2, k3 := w3, k4 := v4, k5 := v5, k6 := w6]
  {
  }

  /** The three-source example: `number_pages` and `numbering_string` come from the
      lowest source, `numbering_options.align` from the highest and
      `numbering_options.start_count_at` from the middle one; `body` appears as `{}`. */
  lemma ThreeSourceExample()
    ensures Merged(ExampleSources()) == map[
      "header" := Hash(map["height" := Int(50), "repeated" := Bool(true)]),
      "footer" := Hash(map["height" := Int(50), "repeated" := Bool(false),
                           "numbering_options" := Hash(map["align" := Sym("left"), "start_count_at" := Int(2)]),
                           "number_pages" := Bool(true),
                           "numbering_string" := Str("<page>"),
                           "style" := Hash(map["font_size" := Int(5)])]),
      "body" := Hash(map[])]
  {
    ExampleFooter();
    ExampleHeader();
    ExampleBody();
    ExampleTopKeys();
    AssembleMerged(ExampleSources(),
      map["height" := Int(50), "repeated" := Bool(false),
          "numbering_options" := Hash(map["align" := Sym("left"), "start_count_at" := Int(2)]),
          "number_pages" := Bool(true),
          "numbering_string" := Str("<page>"),
          "style" := Hash(map["font_size" := Int(5)])],
      map["height" := Int(50), "repeated" := Bool(true)],
      map[]);
  }

  lemma ExampleTopKeys()
    ensures Overlay(ExampleSources()).Keys == {HeaderKey, FooterKey}
  {
    var srcs := ExampleSources();
    OverlayOfThree(srcs);
    TwoBranchKeys(ExampleOver(), ExampleOver()[HeaderKey], ExampleOver()[FooterKey]);
    TwoBranchKeys(ExampleOptions(), ExampleOptions()[HeaderKey], ExampleOptions()[FooterKey]);
    TwoBranchKeys(ExampleDefault(), ExampleDefault()[HeaderKey], ExampleDefault()[FooterKey]);
  }

  /** The merged hash of sources that define only `header` and `footer`. */
  lemma AssembleMerged(srcs: seq<Options>, f: Options, h: Options, b: Options)
    requires Overlay(srcs).Keys == {HeaderKey, FooterKey}
    requires MergeForKey(srcs, FooterKey, FooterNestedKeys) == f
    requires MergeForKey(srcs, HeaderKey, []) == h
    requires MergeForKey(srcs, BodyKey, []) == b
    ensures Merged(srcs) == map[HeaderKey := Hash(h), FooterKey := Hash(f), BodyKey := Hash(b)]
  {
    ReplaceBranches(Overlay(srcs), Hash(f), Hash(h), Hash(b));
  }

  lemma TwoBranchKeys(m: Options, h: Value, f: Value)
    requires m == map[HeaderKey := h, FooterKey := f]
    ensures m.Keys == {HeaderKey, FooterKey}
  {
  }

  /** Replacing the only two keys of a hash and adding `body`. */
  lemma ReplaceBranches(m: Options, f: Value, h: Value, b: Value)
    requires m.Keys == {HeaderKey, FooterKey}
    ensures m[FooterKey := f][HeaderKey := h][BodyKey := b] == map[HeaderKey := h, FooterKey := f, BodyKey := b]
  {
  }
}
