/** `ThousandIsland::StyleHash`: a Hash whose reader answers two aliases that
    Prawn's text options use, `font_size` for `size` and `styles` for `[style]`. */
module StyleHashes {
  import opened Values

  /** A StyleHash holds exactly the entries it was given or merged; the aliases
      are answered on read and never stored. */
  datatype StyleHash = StyleHash(entries: Options)

  /** `StyleHash.new(style)`: an empty hash with `style` merged in. */
  function New(style: Options): (h: StyleHash)
    ensures h.entries == style
    ensures forall k | k in style && k != "font_size" && k != "styles" :: Get(h, k) == style[k]
  {
    StyleHash(map[] + style)
  }

  /** `style_hash[key]` */
  function Get(h: StyleHash, key: Key): Value {
    if key == "font_size" then Lookup(h.entries, "size")
    else if key == "styles" then List([Lookup(h.entries, "style")])
    else Lookup(h.entries, key)
  }

  /** `style_hash.merge(other)`: Hash#merge keeps the receiver's class. */
  function Merge(h: StyleHash, other: Options): (r: StyleHash)
    ensures r.entries.Keys == h.entries.Keys + other.Keys
  {
    StyleHash(h.entries + other)
  }

  /** Reading `font_size` gives the stored `size`, or nil when there is none. */
  lemma FontSizeIsSize(h: StyleHash)
    ensures Get(h, "font_size") == Get(h, "size")
    ensures "size" !in h.entries ==> Get(h, "font_size") == Nil
  {
  }

  /** Reading `styles` gives the stored `style` wrapped in a one-element Array,
      even when `style` is absent (`[nil]`). */
  lemma StylesWrapsStyle(h: StyleHash)
    ensures Get(h, "styles") == List([Get(h, "style")])
    ensures "style" !in h.entries ==> Get(h, "styles") == List([Nil])
  {
  }

  /** Every other key reads as in a plain Hash: the stored value, nil when absent. */
  lemma OtherKeysPlain(h: StyleHash, k: Key)
    requires k != "font_size" && k != "styles"
    ensures k in h.entries ==> Get(h, k) == h.entries[k]
    ensures k !in h.entries ==> Get(h, k) == Nil
  {
  }

  /** A value stored under `font_size` itself can never be read back. */
  lemma StoredFontSizeShadowed(h: StyleHash, v: Value)
    requires "font_size" in h.entries && h.entries["font_size"] == v
    requires Lookup(h.entries, "size") != v
    ensures Get(h, "font_size") != v
  {
  }

  /** Reading a merged StyleHash: `other` wins on the keys it defines, and the
      aliases follow the merged `size` and `style`. */
  lemma MergeGet(h: StyleHash, other: Options, k: Key)
    ensures k != "font_size" && k != "styles" ==>
      Get(Merge(h, other), k) == if k in other then other[k] else Get(h, k)
    ensures Get(Merge(h, other), "font_size") == if "size" in other then other["size"] else Get(h, "font_size")
    ensures Get(Merge(h, other), "styles") == List([if "style" in other then other["style"] else Get(h, "style")])
  {
  }

  /** The StyleHash of the library's own test: size 1, style 2, other 3. */
  lemma TestExample()
    ensures var h := New(map["size" := Int(1), "style" := Int(2), "other" := Int(3)]);
      Get(h, "made_up_key") == Nil && Get(h, "size") == Int(1) && Get(h, "style") == Int(2)
      && Get(h, "other") == Int(3) && Get(h, "font_size") == Int(1) && Get(h, "styles") == List([Int(2)])
  {
  }
}
