/** `ThousandIsland::Components::Base`: a page region that draws itself either
    once or on every page. The document it draws on is the abstract renderer. */
module BaseComponent {
  import opened Values
  import opened Events

  /** A component holds its options; the document is the renderer it emits to. */
  datatype Component = Component(options: Options)

  /** `Base#defaults` */
  function Defaults(): Options {
    map[]
  }

  /** `Base.new(document, options)`: `defaults.merge(options)`. With empty
      defaults the options are exactly those passed. */
  function New(options: Options): (c: Component)
    ensures c.options == options
  {
    Component(Defaults() + options)
  }

  /** `render_all(&block)`: one `repeat(:all)` around the rendered events. */
  function RenderAll(render: Result<seq<Event>>): (r: Result<seq<Event>>)
    ensures render.Ok? ==> r == Ok([RepeatAll(render.value)])
    ensures render.Err? ==> r == render
  {
    match render
    case Ok(events) => Ok([RepeatAll(events)])
    case Err(e) => Err(e)
  }

  /** `draw(&block)`, given what `repeated?` and `render(&block)` produce: the
      render is repeated on all pages when `repeated?` is truthy, drawn once otherwise. */
  function Draw(repeated: Result<Value>, render: Result<seq<Event>>): (r: Result<seq<Event>>)
    ensures repeated.Err? ==> r == Err(repeated.error)
    ensures repeated.Ok? && Truthy(repeated.value) ==> r == RenderAll(render)
    ensures repeated.Ok? && !Truthy(repeated.value) ==> r == render
  {
    match repeated
    case Err(e) => Err(e)
    case Ok(v) => if Truthy(v) then RenderAll(render) else render
  }

  /** `Base#render`: abstract. */
  function Render(c: Component, block: Option<seq<Event>>): (r: Result<seq<Event>>)
    ensures r == Err(NotImplementedError)
  {
    Err(NotImplementedError)
  }

  /** `Base#repeated?`: abstract. */
  function Repeated(c: Component): (r: Result<Value>)
    ensures r == Err(NotImplementedError)
  {
    Err(NotImplementedError)
  }

  /** Drawing renders exactly once: either the render's own events, or a single
      `repeat(:all)` holding them; a failing render fails the draw. */
  lemma DrawRendersOnce(repeated: Value, render: Result<seq<Event>>)
    ensures var r := Draw(Ok(repeated), render);
      (r.Ok? <==> render.Ok?)
      && (render.Ok? ==> r.value == if Truthy(repeated) then [RepeatAll(render.value)] else render.value)
  {
  }

  /** A Base component cannot be drawn: `repeated?` raises before anything is emitted. */
  lemma BaseDrawRaises(c: Component, block: Option<seq<Event>>)
    ensures Draw(Repeated(c), Render(c, block)) == Err(NotImplementedError)
  {
  }
}
