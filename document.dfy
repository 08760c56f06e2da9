/** `ThousandIsland::Document`: renderer options as the document defaults with
    the passed options merged over them. */
module Documents {
  import opened Values

  datatype Document = Document(docOptions: Options)

  /** `document_defaults` */
  function DocumentDefaults(): (d: Options)
    ensures d.Keys == {"page_size", "page_layout", "left_margin", "right_margin", "top_margin", "bottom_margin"}
    ensures d["page_size"] == Str("A4") && d["page_layout"] == Sym("portrait")
    ensures d["left_margin"] == Int(54) && d["right_margin"] == Int(54)
    ensures d["top_margin"] == Int(56) && d["bottom_margin"] == Int(80)
  {
    map["page_size" := Str("A4"), "page_layout" := Sym("portrait"),
        "left_margin" := Int(54), "right_margin" := Int(54),
        "top_margin" := Int(56), "bottom_margin" := Int(80)]
  }

  /** `setup_document_options(options)` with the given defaults: a shallow
      merge of the options over them. */
  function SetupDocumentOptions(defaults: Options, options: Options): (r: Options)
    ensures r.Keys == defaults.Keys + options.Keys
    ensures forall k | k in options :: r[k] == options[k]
    ensures forall k | k in defaults && k !in options :: r[k] == defaults[k]
  {
    MergeHash(defaults, options)
  }

  /** `Document.new(options)` */
  function New(options: Options): (d: Document)
    ensures d.docOptions == SetupDocumentOptions(DocumentDefaults(), options)
  {
    Document(SetupDocumentOptions(DocumentDefaults(), options))
  }

  /** The merge is shallow: a passed hash replaces the default value whole, and
      keys of a default hash do not survive under it. */
  lemma ShallowMerge(defaults: Options, options: Options, k: Key, nested: Key)
    requires k in defaults && defaults[k].Hash? && nested in defaults[k].entries
    requires k in options && options[k] == Hash(map[])
    ensures SetupDocumentOptions(defaults, options)[k] == Hash(map[])
    ensures nested !in SetupDocumentOptions(defaults, options)[k].entries
  {
  }

  /** With no options the document uses exactly the defaults. */
  lemma NoOptionsDefaults()
    ensures New(map[]).docOptions == DocumentDefaults()
  {
  }

  /** Merging is idempotent: passing the same options twice changes nothing. */
  lemma SetupIdempotent(defaults: Options, options: Options)
    ensures SetupDocumentOptions(SetupDocumentOptions(defaults, options), options) == SetupDocumentOptions(defaults, options)
  {
  }

  /** The example of the test file: `{op_one: 1, op_two: 2}` over
      `{op_two: 22, op_three: 3}` is `{op_one: 1, op_two: 2, op_three: 3}`. */
  lemma SetupExample()
    ensures SetupDocumentOptions(map["op_two" := Int(22), "op_three" := Int(3)], map["op_one" := Int(1), "op_two" := Int(2)])
         == map["op_one" := Int(1), "op_two" := Int(2), "op_three" := Int(3)]
  {
    var r := SetupDocumentOptions(map["op_two" := Int(22), "op_three" := Int(3)], map["op_one" := Int(1), "op_two" := Int(2)]);
    assert r.Keys == {"op_one", "op_two", "op_three"};
  }
}
