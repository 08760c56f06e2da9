/** `ThousandIsland::Components::Body`: the box between header and footer. */
module BodyComponent {
  import opened Values
  import opened Events
  import BaseComponent

  datatype Body = Body(options: Options)

  /** `Body.new(document, options)`: Base's empty defaults merged with the options. */
  function New(options: Options): (b: Body)
    ensures b.options == options
  {
    Body(BaseComponent.Defaults() + options)
  }

  /** `Body.defaults` */
  function ClassDefaults(): (d: Options)
    ensures |d| == 0
  {
    map[]
  }

  /** `render`: one box at `[0, top]`, `height` tall and as wide as the bounds,
      holding the block's events. */
  function Render(b: Body, bounds: Bounds, block: Option<seq<Event>>): (r: seq<Event>)
    ensures |r| == 1 && r[0].BoundingBox?
    ensures r[0].x == Int(0) && r[0].y == Lookup(b.options, "top")
    ensures r[0].width == bounds.width && r[0].height == Lookup(b.options, "height")
    ensures r[0].inner == Contents(block)
  {
    [BoundingBox(Int(0), Lookup(b.options, "top"), bounds.width, Lookup(b.options, "height"), Contents(block))]
  }

  /** `draw(&block)`: Body does not define `repeated?`, so Base's raises. */
  function Draw(b: Body, bounds: Bounds, block: Option<seq<Event>>): Result<seq<Event>> {
    BaseComponent.Draw(BaseComponent.Repeated(BaseComponent.Component(b.options)), Ok(Render(b, bounds, block)))
  }

  /** Drawing a body always raises NotImplementedError. */
  lemma DrawRaises(b: Body, bounds: Bounds, block: Option<seq<Event>>)
    ensures Draw(b, bounds, block) == Err(NotImplementedError)
  {
  }

  /** The evidently intended draw: the body is not repeated, so it is rendered once. */
  function DrawOnce(b: Body, bounds: Bounds, block: Option<seq<Event>>): (r: Result<seq<Event>>)
    ensures r == Ok(Render(b, bounds, block))
  {
    BaseComponent.Draw(Ok(Bool(false)), Ok(Render(b, bounds, block)))
  }

  /** With `top` 787 and `height` 734 the box is placed there. */
  lemma PlacedByOptions(bounds: Bounds)
    ensures Render(New(map["top" := Int(787), "height" := Int(734)]), bounds, None)
         == [BoundingBox(Int(0), Int(787), bounds.width, Int(734), [])]
  {
  }
}
