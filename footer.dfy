/** `ThousandIsland::Components::Footer`: a box at the bottom of the page split
    into three columns (15%, 70%, 15% of the width); the middle column holds the
    caller's content in the footer style, the right one the page numbers. */
module FooterComponent {
  import opened Values
  import opened Events
  import BaseComponent

  datatype Footer = Footer(options: Options)

  /** `Footer.new(document, options)`: the instance `defaults` is Base's `{}`,
      so the options are exactly those passed. */
  function New(options: Options): (f: Footer)
    ensures f.options == options
  {
    Footer(BaseComponent.Defaults() + options)
  }

  /** `Footer.numbering_options` */
  function ClassNumberingOptions(): Options {
    map["align" := Sym("right"), "start_count_at" := Int(1)]
  }

  /** `Footer.defaults` (used by the template as the footer's lowest-precedence options). */
  function ClassDefaults(): Options {
    map["height" := Int(33), "top_padding" := Int(20), "repeated" := Bool(true),
        "numbering_options" := Hash(ClassNumberingOptions()), "number_pages" := Bool(true),
        "numbering_string" := Str("<page>"), "style" := Hash(map[])]
  }

  /** `numbering_string` */
  function NumberingString(f: Footer): Value {
    Lookup(f.options, "numbering_string")
  }

  /** `number_pages?` */
  function NumberPagesOption(f: Footer): Value {
    Lookup(f.options, "number_pages")
  }

  /** `repeated?` */
  function Repeated(f: Footer): Value {
    Lookup(f.options, "repeated")
  }

  // ---------------------------------------------------------------------------
  // Columns (Ruby Floats as exact reals)

  /** `col1_width` */
  function Col1Width(b: Bounds): (w: Number)
    ensures w.Float? && ToReal(w) == ToReal(b.width) * (15.0 / 100.0)
  {
    Mul(b.width, Float(15.0 / 100.0))
  }

  /** `col2_width` */
  function Col2Width(b: Bounds): (w: Number)
    ensures w.Float? && ToReal(w) == ToReal(b.width) * (70.0 / 100.0)
  {
    Mul(b.width, Float(70.0 / 100.0))
  }

  /** `col3_width` */
  function Col3Width(b: Bounds): (w: Number)
    ensures w.Float? && ToReal(w) == ToReal(b.width) * (15.0 / 100.0)
  {
    Mul(b.width, Float(15.0 / 100.0))
  }

  /** Where col3 starts: `col1_width + col2_width`. */
  function Col3Start(b: Bounds): (x: Number)
    ensures ToReal(x) == ToReal(Col1Width(b)) + ToReal(Col2Width(b))
  {
    Add(Col1Width(b), Col2Width(b))
  }

  /** In exact arithmetic the three columns tile the width: col2 starts where
      col1 ends, col3 where col2 ends, and col3 ends at the right edge. */
  lemma ColumnsTile(b: Bounds)
    ensures ToReal(Col1Width(b)) + ToReal(Col2Width(b)) + ToReal(Col3Width(b)) == ToReal(b.width)
    ensures ToReal(Col3Start(b)) + ToReal(Col3Width(b)) == ToReal(b.width)
    ensures ToReal(Col1Width(b)) == ToReal(Col3Width(b))
  {
  }

  // ---------------------------------------------------------------------------
  // Style and numbering

  /** The style entries the renderer responds to, with their values. */
  function SupportedEntries(style: Options, supported: set<Key>): (r: Options)
    ensures forall k :: k in r <==> k in style && k in supported
    ensures forall k | k in r :: r[k] == style[k]
  {
    map k | k in style && k in supported :: style[k]
  }

  /** The loop in `col2`: `pdf.send(k, v)` for each style entry the renderer
      responds to. The keys are taken in no particular order, so the result
      records which calls are made, not their order. */
  method ApplyStyle(style: Options, supported: set<Key>) returns (applied: Options)
    ensures applied == SupportedEntries(style, supported)
  {
    applied := map[];
    var rest := style.Keys;
    while rest != {}
      invariant rest <= style.Keys
      invariant forall k :: k in applied <==> k in style && k !in rest && k in supported
      invariant forall k | k in applied :: applied[k] == style[k]
      decreases rest
    {
      var k :| k in rest;
      if k in supported {
        applied := applied[k := style[k]];
      }
      rest := rest - {k};
    }
  }

  /** `numbering_options`: `options[:style].merge(options[:numbering_options])`.
      A style that is not a Hash has no `merge`; merging something that is not a
      Hash raises TypeError. */
  function NumberingOptions(f: Footer): (r: Result<Options>)
    ensures r.Ok? <==> Lookup(f.options, "style").Hash? && Lookup(f.options, "numbering_options").Hash?
    ensures r.Err? && !Lookup(f.options, "style").Hash? ==> r.error == NoMethodError
    ensures r.Err? && Lookup(f.options, "style").Hash? ==> r.error == TypeError
    ensures r.Ok? ==> forall k :: k in r.value <==>
      k in Lookup(f.options, "style").entries || k in Lookup(f.options, "numbering_options").entries
    ensures r.Ok? ==> forall k | k in Lookup(f.options, "numbering_options").entries ::
      r.value[k] == Lookup(f.options, "numbering_options").entries[k]
    ensures r.Ok? ==> forall k | k in r.value && k !in Lookup(f.options, "numbering_options").entries ::
      r.value[k] == Lookup(f.options, "style").entries[k]
  {
    var style := Lookup(f.options, "style");
    var numbering := Lookup(f.options, "numbering_options");
    if !style.Hash? then Err(NoMethodError)
    else if !numbering.Hash? then Err(TypeError)
    else Ok(MergeHash(style.entries, numbering.entries))
  }

  // ---------------------------------------------------------------------------
  // Rendering

  /** `col2`: a box from col1's right edge, the style applied before the content. */
  function Col2(f: Footer, b: Bounds, block: Option<seq<Event>>, supported: set<Key>): Result<Event> {
    var style := Lookup(f.options, "style");
    if !style.Hash? then Err(NoMethodError)
    else Ok(BoundingBox(Col1Width(b), Int(0), Col2Width(b), Lookup(f.options, "height"),
                        [StyleCalls(SupportedEntries(style.entries, supported))] + Contents(block)))
  }

  /** `col3`: a box from col2's right edge holding the page numbers when
      `number_pages?` is truthy; `numbering_options` is computed only then. */
  function Col3(f: Footer, b: Bounds): Result<Event> {
    if Truthy(NumberPagesOption(f)) then
      match NumberingOptions(f)
      case Err(e) => Err(e)
      case Ok(opts) =>
        Ok(BoundingBox(Col3Start(b), Int(0), Col3Width(b), Lookup(f.options, "height"),
                       [NumberPages(NumberingString(f), opts)]))
    else
      Ok(BoundingBox(Col3Start(b), Int(0), Col3Width(b), Lookup(f.options, "height"), []))
  }

  /** `render(&block)`: the outer box at `[0, 0]`, then col1 (empty), col2, col3. */
  function Render(f: Footer, b: Bounds, block: Option<seq<Event>>, supported: set<Key>): Result<seq<Event>> {
    match Col2(f, b, block, supported)
    case Err(e) => Err(e)
    case Ok(c2) =>
      match Col3(f, b)
      case Err(e) => Err(e)
      case Ok(c3) => Ok([BoundingBox(Int(0), Int(0), b.width, Lookup(f.options, "height"), [c2, c3])])
  }

  /** `draw(&block)`: Base's dispatch with the footer's own `repeated?`. */
  function Draw(f: Footer, b: Bounds, block: Option<seq<Event>>, supported: set<Key>): (r: Result<seq<Event>>)
    ensures r.Ok? <==> Render(f, b, block, supported).Ok?
    ensures r.Ok? && Truthy(Repeated(f)) ==> r.value == [RepeatAll(Render(f, b, block, supported).value)]
    ensures r.Ok? && !Truthy(Repeated(f)) ==> r.value == Render(f, b, block, supported).value
  {
    BaseComponent.Draw(Ok(Repeated(f)), Render(f, b, block, supported))
  }

  // ---------------------------------------------------------------------------
  // Properties

  /** The footer renders when its style is a Hash and, if pages are numbered,
      its numbering options are a Hash too. */
  lemma RenderSucceeds(f: Footer, b: Bounds, block: Option<seq<Event>>, supported: set<Key>)
    ensures Render(f, b, block, supported).Ok? <==>
      Lookup(f.options, "style").Hash?
      && (Truthy(NumberPagesOption(f)) ==> Lookup(f.options, "numbering_options").Hash?)
  {
  }

  /** The layout of a rendered footer: one box at `[0, 0]` across the bounds holding
      col2 and col3, every box `height` tall, col2 starting at col1's width and
      col3 at col1 + col2; col2 applies the supported style entries, then the content. */
  lemma RenderLayout(f: Footer, b: Bounds, block: Option<seq<Event>>, supported: set<Key>)
    requires Render(f, b, block, supported).Ok?
    ensures var r := Render(f, b, block, supported).value;
      var h := Lookup(f.options, "height");
      |r| == 1 && r[0] == BoundingBox(Int(0), Int(0), b.width, h, r[0].inner) && |r[0].inner| == 2
      && r[0].inner[0] == BoundingBox(Col1Width(b), Int(0), Col2Width(b), h,
           [StyleCalls(SupportedEntries(Lookup(f.options, "style").entries, supported))] + Contents(block))
      && r[0].inner[1].BoundingBox? && r[0].inner[1].x == Col3Start(b) && r[0].inner[1].y == Int(0)
      && r[0].inner[1].width == Col3Width(b) && r[0].inner[1].height == h
  {
  }

  /** Page numbers are emitted exactly when `number_pages?` is truthy, with the
      numbering string and the numbering options. */
  lemma PageNumbersGated(f: Footer, b: Bounds, block: Option<seq<Event>>, supported: set<Key>)
    requires Render(f, b, block, supported).Ok?
    ensures var col3 := Render(f, b, block, supported).value[0].inner[1];
      if Truthy(NumberPagesOption(f))
      then col3.inner == [NumberPages(NumberingString(f), NumberingOptions(f).value)]
      else col3.inner == []
  {
  }

  /** The class defaults describe a footer 33 tall, repeated, numbering pages
      with `<page>` aligned right from 1. */
  lemma ClassDefaultsFooter(b: Bounds, block: Option<seq<Event>>, supported: set<Key>)
    ensures var f := New(ClassDefaults());
      NumberingOptions(f) == Ok(ClassNumberingOptions())
      && Render(f, b, block, supported).Ok?
      && Render(f, b, block, supported).value[0].inner[1].inner
         == [NumberPages(Str("<page>"), map["align" := Sym("right"), "start_count_at" := Int(1)])]
      && Draw(f, b, block, supported) == Ok([RepeatAll(Render(f, b, block, supported).value)])
  {
    var f := New(ClassDefaults());
    assert Lookup(f.options, "style") == Hash(map[]);
    assert map[] + ClassNumberingOptions() == ClassNumberingOptions();
  }

  /** A style entry is overridden by `numbering_options` in the page numbers:
      `{size: 8, align: :left}` styled and `{align: :right}` numbered gives
      `{size: 8, align: :right}`. */
  lemma NumberingOverridesStyle()
    ensures NumberingOptions(New(map["style" := Hash(map["size" := Int(8), "align" := Sym("left")]),
                                     "numbering_options" := Hash(map["align" := Sym("right")])]))
         == Ok(map["size" := Int(8), "align" := Sym("right")])
  {
    var s := map["size" := Int(8), "align" := Sym("left")];
    var n := map["align" := Sym("right")];
    assert s + n == map["size" := Int(8), "align" := Sym("right")];
  }

  /** A footer without a style cannot render: `nil.each` raises NoMethodError. */
  lemma MissingStyleRaises(b: Bounds, block: Option<seq<Event>>, supported: set<Key>)
    ensures Render(New(map[]), b, block, supported) == Err(NoMethodError)
  {
  }
}
