/** The rendering surface (Prawn) as an abstract sink: the library's drawing code
    is modelled by the sequence of renderer calls it makes. A call that takes a
    block carries the events issued inside that block. */
module Events {
  import opened Values
  import StyleHashes

  /** What `pdf.bounds` reports for the current frame. */
  datatype Bounds = Bounds(width: Number, height: Number)

  datatype Event =
    /** `bounding_box([x, y], width: w, height: h) { inner }` */
    | BoundingBox(x: Value, y: Value, width: Value, height: Value, inner: seq<Event>)
    /** `repeat(:all) { inner }` */
    | RepeatAll(inner: seq<Event>)
    /** `number_pages(template, options)` */
    | NumberPages(template: Value, options: Options)
    /** `text(output, style)`, with the StyleHash itself as the style */
    | Text(output: Value, style: StyleHashes.StyleHash)
    /** `send(k, v)` for each entry of the hash: which calls are made and with
        what values, not the order in which they are made */
    | StyleCalls(entries: Options)
    /** `table(rows, options)` */
    | Table(rows: seq<Value>, options: Options)
    /** `render` */
    | Render

  /** The events of an optional content callback: none when it is not defined. */
  function Contents(callback: Option<seq<Event>>): seq<Event> {
    if callback.Some? then callback.value else []
  }
}
