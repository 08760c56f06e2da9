/** `ThousandIsland::Components::Header`: a box across the top of the page. */
module HeaderComponent {
  import opened Values
  import opened Events

  datatype Header = Header(options: Options)

  /** `Header#defaults` */
  function Defaults(): Options {
    map["header_height" := Int(33), "header_bottom_padding" := Int(20), "title" := Str(""),
        "repeated" := Bool(true)]
  }

  /** `Header.new(document, options)`: the passed options override the defaults. */
  function New(options: Options): (h: Header)
    ensures h.options.Keys == Defaults().Keys + options.Keys
    ensures forall k | k in options :: h.options[k] == options[k]
    ensures forall k | k in Defaults() && k !in options :: h.options[k] == Defaults()[k]
  {
    Header(Defaults() + options)
  }

  /** `repeated?` */
  function Repeated(h: Header): Value {
    Lookup(h.options, "repeated")
  }

  /** `render`: one box at the top-left corner `[0, bounds.height]`, as wide as
      the bounds and `header_height` tall, holding the block's events. */
  function Render(h: Header, bounds: Bounds, block: Option<seq<Event>>): (r: seq<Event>)
    ensures |r| == 1 && r[0].BoundingBox?
    ensures r[0].x == Int(0) && r[0].y == bounds.height && r[0].width == bounds.width
    ensures r[0].height == Lookup(h.options, "header_height")
    ensures r[0].inner == Contents(block)
  {
    [BoundingBox(Int(0), bounds.height, bounds.width, Lookup(h.options, "header_height"), Contents(block))]
  }

  /** `draw(&block)`: repeated on every page when `repeated?`, once otherwise. */
  function Draw(h: Header, bounds: Bounds, block: Option<seq<Event>>): (r: seq<Event>)
    ensures Truthy(Repeated(h)) ==> r == [RepeatAll(Render(h, bounds, block))]
    ensures !Truthy(Repeated(h)) ==> r == Render(h, bounds, block)
  {
    if Truthy(Repeated(h)) then [RepeatAll(Render(h, bounds, block))] else Render(h, bounds, block)
  }

  /** With no options the header is 33 tall and drawn on every page. */
  lemma DefaultHeader(bounds: Bounds, block: Option<seq<Event>>)
    ensures var h := New(map[]);
      Render(h, bounds, block)[0].height == Int(33)
      && Draw(h, bounds, block) == [RepeatAll(Render(h, bounds, block))]
  {
    assert Defaults() + map[] == Defaults();
  }

  /** A custom `header_height` of 20 sizes the box 20 tall; the other defaults stay. */
  lemma CustomHeight(bounds: Bounds)
    ensures var h := New(map["header_height" := Int(20)]);
      Render(h, bounds, None) == [BoundingBox(Int(0), bounds.height, bounds.width, Int(20), [])]
      && Repeated(h) == Bool(true)
  {
  }

  /** A header that is not repeated is drawn exactly once. */
  lemma NotRepeatedDrawnOnce(bounds: Bounds, block: Option<seq<Event>>)
    ensures Draw(New(map["repeated" := Bool(false)]), bounds, block)
         == [BoundingBox(Int(0), bounds.height, bounds.width, Int(33), Contents(block))]
  {
  }
}
