/** `ThousandIsland::Table`: header, body and footer rows, assembled into one
    row list for the renderer's `table` call, and the options passed with it. */
module Tables {
  import opened Values
  import opened Events

  /** The option keys passed on to the renderer's `table`. */
  const PrawnKeys: set<Key> := {"cell_style", "header", "column_widths", "position", "width", "row_colors"}

  /** The settings class a table class uses, by name. */
  const DefaultSettingsKlass: string := "TableSettings"

  /** Header rows, then body rows, then footer rows. */
  function Assembled(header: seq<Value>, body: seq<Value>, footer: seq<Value>): (r: seq<Value>)
    ensures |r| == |header| + |body| + |footer|
    ensures forall i | 0 <= i < |header| :: r[i] == header[i]
    ensures forall i | 0 <= i < |body| :: r[|header| + i] == body[i]
    ensures forall i | 0 <= i < |footer| :: r[|header| + |body| + i] == footer[i]
  {
    header + body + footer
  }

  /** `prawn_header_setting` for the given header rows and options: false when
      there are no header rows or `header_repeat` is exactly false, otherwise the
      number of header rows. */
  function HeaderSetting(header: seq<Value>, options: Options): (r: Value)
    ensures r == Bool(false) <==> |header| == 0 || Lookup(options, "header_repeat") == Bool(false)
    ensures r != Bool(false) ==> r == Int(|header|) && |header| > 0
  {
    if |header| == 0 || Lookup(options, "header_repeat") == Bool(false) then Bool(false)
    else Int(|header|)
  }

  /** `options_for_prawn` for the given options. */
  function PrawnOptions(options: Options): (r: Options)
    ensures r.Keys == options.Keys * PrawnKeys
    ensures forall k | k in r :: r[k] == options[k]
  {
    map k | k in options && k in PrawnKeys :: options[k]
  }

  /** Only a missing, nil or truthy `header_repeat` repeats the header: nil is
      not false. */
  lemma HeaderRepeatsUnlessFalse(header: seq<Value>, options: Options)
    requires |header| > 0
    ensures Truthy(HeaderSetting(header, options)) <==> Lookup(options, "header_repeat") != Bool(false)
    ensures "header_repeat" !in options ==> HeaderSetting(header, options) == Int(|header|)
  {
  }

  /** The table of the test file: two header rows repeat unless `header_repeat`
      is false. */
  lemma HeaderRowsExample()
    ensures HeaderSetting([List([Str(" ")]), List([Str("The Number"), Str("As"), Str("Bs")])], map[]) == Int(2)
    ensures HeaderSetting([List([Str(" ")]), List([Str("The Number"), Str("As"), Str("Bs")])],
                          map["header_repeat" := Bool(false)]) == Bool(false)
  {
  }

  /** Filtering is a projection: filtering again changes nothing, and the
      `header` entry always survives. */
  lemma PrawnOptionsIdempotent(options: Options)
    ensures PrawnOptions(PrawnOptions(options)) == PrawnOptions(options)
    ensures "header" in options ==> "header" in PrawnOptions(options) && PrawnOptions(options)["header"] == options["header"]
  {
  }

  /** The class-level settings registry of a table class. */
  class TableClass {
    /** `@table_settings_klass` */
    var settingsKlass: Option<string>

    constructor ()
      ensures settingsKlass == None
    {
      settingsKlass := None;
    }

    /** `table_settings_klass`: `@table_settings_klass ||= TableSettings`. */
    method TableSettingsKlass() returns (k: string)
      modifies this
      ensures old(settingsKlass).None? ==> k == DefaultSettingsKlass
      ensures old(settingsKlass).Some? ==> k == old(settingsKlass).value
      ensures settingsKlass == Some(k)
    {
      if settingsKlass.None? {
        settingsKlass := Some(DefaultSettingsKlass);
      }
      k := settingsKlass.value;
    }

    /** `uses_settings(klass)` */
    method UsesSettings(klass: string)
      modifies this
      ensures settingsKlass == Some(klass)
    {
      settingsKlass := Some(klass);
    }
  }

  class Table {
    /** `@header_rows`, `@body_rows`, `@footer_rows`; unset lists read as `[]`. */
    var headerRows: seq<Value>
    var bodyRows: seq<Value>
    var footerRows: seq<Value>
    /** `table_options` */
    var tableOptions: Options

    constructor ()
      ensures headerRows == [] && bodyRows == [] && footerRows == [] && tableOptions == map[]
    {
      headerRows := [];
      bodyRows := [];
      footerRows := [];
      tableOptions := map[];
    }

    /** `settings` */
    function Settings(): (r: Options)
      ensures |r| == 0
    {
      map[]
    }

    /** `body_rows=`: only an Array is accepted. */
    method SetBodyRows(rows: Value) returns (err: Option<Error>)
      modifies this
      ensures rows.List? ==> err == None && bodyRows == rows.items
      ensures !rows.List? ==> err == Some(ArgumentError("table_rows must be an array")) && bodyRows == old(bodyRows)
      ensures headerRows == old(headerRows) && footerRows == old(footerRows) && tableOptions == old(tableOptions)
    {
      if !rows.List? {
        return Some(ArgumentError("table_rows must be an array"));
      }
      bodyRows := rows.items;
      err := None;
    }

    /** `header_rows=`: only an Array is accepted. */
    method SetHeaderRows(rows: Value) returns (err: Option<Error>)
      modifies this
      ensures rows.List? ==> err == None && headerRows == rows.items
      ensures !rows.List? ==> err == Some(ArgumentError("header_cells must be an array")) && headerRows == old(headerRows)
      ensures bodyRows == old(bodyRows) && footerRows == old(footerRows) && tableOptions == old(tableOptions)
    {
      if !rows.List? {
        return Some(ArgumentError("header_cells must be an array"));
      }
      headerRows := rows.items;
      err := None;
    }

    /** `footer_rows=`: only an Array is accepted. */
    method SetFooterRows(rows: Value) returns (err: Option<Error>)
      modifies this
      ensures rows.List? ==> err == None && footerRows == rows.items
      ensures !rows.List? ==> err == Some(ArgumentError("footer_rows must be an array")) && footerRows == old(footerRows)
      ensures headerRows == old(headerRows) && bodyRows == old(bodyRows) && tableOptions == old(tableOptions)
    {
      if !rows.List? {
        return Some(ArgumentError("footer_rows must be an array"));
      }
      footerRows := rows.items;
      err := None;
    }

    /** `num_header_rows` */
    function NumHeaderRows(): (n: nat)
      reads this
      ensures n == |headerRows|
    {
      |headerRows|
    }

    /** `num_footer_rows` */
    function NumFooterRows(): (n: nat)
      reads this
      ensures n == |footerRows|
    {
      |footerRows|
    }

    /** `prawn_header_setting` */
    function PrawnHeaderSetting(): (r: Value)
      reads this
      ensures r == Bool(false) || r == Int(NumHeaderRows())
    {
      HeaderSetting(headerRows, tableOptions)
    }

    /** `options_for_prawn` */
    function OptionsForPrawn(): (r: Options)
      reads this
      ensures r.Keys <= PrawnKeys
    {
      PrawnOptions(tableOptions)
    }

    /** `table_data`: every header row, last first, is put in front of the body
        rows and every footer row appended, in place: the body list itself
        becomes the whole table. */
    method TableData() returns (data: seq<Value>)
      modifies this
      ensures data == Assembled(old(headerRows), old(bodyRows), old(footerRows))
      ensures bodyRows == data
      ensures headerRows == old(headerRows) && footerRows == old(footerRows) && tableOptions == old(tableOptions)
    {
      var i := |headerRows|;
      while i > 0
        invariant 0 <= i <= |headerRows|
        invariant bodyRows == headerRows[i..] + old(bodyRows)
        invariant headerRows == old(headerRows) && footerRows == old(footerRows) && tableOptions == old(tableOptions)
      {
        i := i - 1;
        bodyRows := [headerRows[i]] + bodyRows;
        assert headerRows[i..] == [headerRows[i]] + headerRows[i + 1..];
      }
      var j := 0;
      while j < |footerRows|
        invariant 0 <= j <= |footerRows|
        invariant bodyRows == headerRows + old(bodyRows) + footerRows[..j]
        invariant headerRows == old(headerRows) && footerRows == old(footerRows) && tableOptions == old(tableOptions)
      {
        bodyRows := bodyRows + [footerRows[j]];
        assert footerRows[..j + 1] == footerRows[..j] + [footerRows[j]];
        j := j + 1;
      }
      assert footerRows[..j] == footerRows;
      data := bodyRows;
    }

    /** `draw(options)`, given the options after `merged_options`: they become
        `table_options`, whose `header` is set to the header setting, and one
        `table` call is made with the assembled rows and the filtered options. */
    method Draw(merged: Options) returns (events: seq<Event>)
      modifies this
      ensures tableOptions == merged["header" := HeaderSetting(old(headerRows), merged)]
      ensures events == [Table(Assembled(old(headerRows), old(bodyRows), old(footerRows)), PrawnOptions(tableOptions))]
      ensures bodyRows == Assembled(old(headerRows), old(bodyRows), old(footerRows))
      ensures headerRows == old(headerRows) && footerRows == old(footerRows)
    {
      tableOptions := merged;
      tableOptions := tableOptions["header" := PrawnHeaderSetting()];
      var data := TableData();
      events := [Table(data, OptionsForPrawn())];
    }
  }

  /** The renderer's `header` option after `draw`: the header setting, whatever
      the merged options said. */
  lemma DrawnHeaderOption(header: seq<Value>, merged: Options)
    ensures var opts := PrawnOptions(merged["header" := HeaderSetting(header, merged)]);
      "header" in opts && opts["header"] == HeaderSetting(header, merged)
  {
  }

  /** The assembled rows begin with the header rows and end with the footer rows,
      so the renderer's `header` count, when set, covers exactly the header rows. */
  lemma AssembledFrames(header: seq<Value>, body: seq<Value>, footer: seq<Value>, options: Options)
    ensures var r := Assembled(header, body, footer);
      r[..|header|] == header && r[|r| - |footer|..] == footer
      && r[|header|..|r| - |footer|] == body
    ensures HeaderSetting(header, options).Int? ==> HeaderSetting(header, options).i == |header|
  {
    var r := Assembled(header, body, footer);
    assert r == header + body + footer;
    assert r[..|header|] == header;
    assert r[|r| - |footer|..] == footer;
    assert r[|header|..|r| - |footer|] == body;
  }
}
