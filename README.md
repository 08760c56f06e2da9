# ThousandIsland in Dafny

A model of the core of ThousandIsland, a Ruby library that builds PDF documents on top of the Prawn renderer.

- A **Template** merges its option hashes into one set of document options, in precedence order. The sources are the constructor options, the template's `settings`, its `defaults` and the defaults of its components. The merge is `Utilities::DeepMerge`.
- From the merged options, the template computes where the body sits between the header and the footer.
- It draws the **Header**, **Body** and **Footer** components around content callbacks.
- It answers style shortcuts (`h1 "text"`) from its **StyleSheet**, whose styles are **StyleHash**es.
- A **Builder** names a template class, makes one template, and draws body, header and footer in a fixed order before rendering.
- A **Table** assembles header, body and footer rows for Prawn's `table` call.
- A **Document** merges its options shallowly over fixed defaults.

The renderer is an abstract sink. Each drawing operation returns the sequence of renderer calls it makes (`Events.Event`: bounding boxes, `repeat(:all)`, `number_pages`, `text`, style calls, `table`, `render`). A call that takes a block carries the events issued inside it. Ruby values are `Values.Value`, and Ruby hashes with symbol keys are `map<string, Value>`. A raised exception is the `Err` of a `Result`.

Modules, one per source file:

- `Values` and `Events`: values and renderer calls.
- `DeepMerge` and `DeepMergeExamples`: `utilities.rb`.
- `StyleHashes`: `style_hash.rb`.
- `StyleSheet`: `style_sheet.rb`.
- `BaseComponent`, `HeaderComponent`, `FooterComponent`, `BodyComponent`: the component files.
- `Templates`: `template.rb`.
- `Tables`: `table.rb`.
- `Documents`: `document.rb`.
- `Builders`: `builder.rb`.

**How DeepMerge is specified.** The merge is specified by functions over the sources in precedence order, highest first:

- `Overlay` folds `merge!`.
- `Branches`/`Nested` pick out a branch or a nested hash of each source.
- `MergeForKey` and `Merged` give the two results.

`Winner` ("the value in the first source that defines the key") is the independent reference that the precedence lemmas compare against. The Ruby loops in `merge_options` and `merge_for_key_and_nested_keys` are methods proved equal to these functions.

**Where the model follows the code rather than the library's own tests:**

- `spec/thousand_island/utilities/style_hash_spec.rb:24-26` expects `styles` to read as `2`. The code returns `[2]`, and `StyleHashes.TestExample` states `[2]`.
- `spec/thousand_island/style_sheet_spec.rb:5-16` compares `h1_style` with an eight-key hash that includes the aliases. The code stores six keys, and `StyleSheet.H1OfDefault` states those six.
- `spec/thousand_island/template_spec.rb:7-13` expects only the three option keys. `merge_options` always adds `header`, `footer` and `body`, and `Templates.SetupExample` states both.
- `spec/thousand_island/components/footer_spec.rb:37-41` expects the footer box at `[0, height]`. `footer.rb:14` places it at `[0, 0]`, and `FooterComponent.RenderLayout` states `[0, 0]`.

**Wiring the source leaves inconsistent, modelled as written:**

- The Header component reads `header_height` (`header.rb:26-30`), but the template's geometry reads `header[:height]` (`template.rb:181`). Neither `defaults` nor the Header defaults supply a `height`. So unless the caller or `settings` provide one, a rendered header's space is `nil + nil`, which raises (`Templates.HeaderDefaultsLackHeight`).
- Footer instances get Base's empty `defaults`, not `Footer.defaults` (`FooterComponent.New`). The class defaults reach the footer only through `component_defaults`.
- `Builder#respond_to_missing?` and `method_missing` disagree with the template about `default`. The template's `method_missing` accepts `default` because `default_style` exists. The builder forwards only available styles, so `builder.default "x"` is a NoMethodError (`Builders.DefaultNotForwarded`).

## Model

| member | source | states |
|---|---|---|
| Values.MergeHash | lib/thousand_island/document.rb:17 | `a.merge(b)` holds the keys of both hashes; `b` wins where both define a key, and `a` keeps the rest |
| Values.Add | lib/thousand_island/template.rb:181 | Ruby `+` on numbers is exact addition; the result is an Integer exactly when both operands are |
| Values.Sub | lib/thousand_island/template.rb:173 | Ruby `-` on numbers is exact subtraction; the result is an Integer exactly when both operands are |
| Values.Mul | lib/thousand_island/style_sheet.rb:49 | Ruby `*` on numbers is exact multiplication; the result is an Integer exactly when both operands are |
| Values.Truncate | lib/thousand_island/style_sheet.rb:49 | the count Ruby takes from a number is the Integer itself, or the Float truncated toward zero |
| Values.Repeat | lib/thousand_island/style_sheet.rb:49 | a String or Array repeated `n` times is `n` times as long and holds the original's element `i mod length` at index `i` |
| Values.Times | lib/thousand_island/style_sheet.rb:49 | Ruby `a * n` multiplies numbers, repeats a String or an Array by the truncated count and raises ArgumentError for a negative one, and raises NoMethodError for nil, booleans, Symbols and Hashes |
| DeepMerge.ReverseAt | lib/thousand_island/utilities/utilities.rb:15 | after `reverse!`, the element at index `i` is the one at the mirrored index |
| DeepMerge.ReverseInvolutive | lib/thousand_island/utilities/utilities.rb:15 | reversing twice restores the precedence order, so the loops over the reversed list see the sources lowest first |
| DeepMerge.ReverseMembers | lib/thousand_island/utilities/utilities.rb:15 | reversal keeps exactly the same sources, so the shape requirement on every source survives it |
| DeepMerge.MergeOptions | lib/thousand_island/utilities/utilities.rb:14-27 | the Ruby procedure returns exactly the specified merge `Merged` of the sources in precedence order |
| DeepMerge.MergeAll | lib/thousand_island/utilities/utilities.rb:20-22 | the `merge!` loop over the reversed sources gives the overlay in which higher-precedence sources win |
| DeepMerge.MergeFooter | lib/thousand_island/utilities/utilities.rb:29-32 | the footer merge is the key-by-key branch merge with `numbering_options` and `style` merged one level deeper |
| DeepMerge.MergeHeader | lib/thousand_island/utilities/utilities.rb:34-36 | the header merge is the key-by-key branch merge with no nested keys |
| DeepMerge.MergeBody | lib/thousand_island/utilities/utilities.rb:38-40 | the body merge is the key-by-key branch merge with no nested keys |
| DeepMerge.MergeForKeyAndNestedKeys | lib/thousand_island/utilities/utilities.rb:42-53 | the two nested loops compute the branch overlay with each listed nested key overlaid on top; the listed keys appear once any source was visited |
| DeepMerge.MergeNestedKeys | lib/thousand_island/utilities/utilities.rb:46-49 | one turn of the inner loop adds each listed key, merges in this source's truthy nested hash and leaves other entries alone |
| DeepMerge.NestedContribution | lib/thousand_island/utilities/utilities.rb:48 | the Ruby guard `h[key] && h[key][k]` admits exactly the sources whose nested hash contributes something |
| DeepMerge.OverlayStep | lib/thousand_island/utilities/utilities.rb:45-51 | visiting one more source merges its truthy branch and nested hashes over what was accumulated; a falsy branch adds nothing |
| DeepMerge.FinishMerge | lib/thousand_island/utilities/utilities.rb:52 | `merged.merge(temp)` assembles the accumulated branch and nested hashes into the branch result |
| DeepMerge.OverlayIsWinner | lib/thousand_island/utilities/utilities.rb:20-22 | a key is in the overlay exactly when some source defines it, with the value of the first (highest-precedence) source that does |
| DeepMerge.TopLevelPrecedence | lib/thousand_island/utilities/utilities.rb:14-22 | a top-level key other than the three branches takes its whole value from the first source defining it, and is absent when none does |
| DeepMerge.BranchesAlwaysPresent | lib/thousand_island/utilities/utilities.rb:23-25 | the result always holds `header`, `footer` and `body` as hashes, whatever the sources |
| DeepMerge.BodyDefaultsToEmpty | lib/thousand_island/utilities/utilities.rb:38-40 | when no source supplies a body, the merged body is `{}` |
| DeepMerge.BranchPrecedence | lib/thousand_island/utilities/utilities.rb:45-51 | inside header, body and the unlisted footer keys, a second-level key takes the value of the first source whose branch defines it; keys missing higher up survive from lower sources |
| DeepMerge.NoForcedKeys | lib/thousand_island/utilities/utilities.rb:34-40 | header and body contain exactly the keys some source's branch holds, with nothing forced in |
| DeepMerge.FooterNestedMerge | lib/thousand_island/utilities/utilities.rb:46-52 | once there is a source, the footer always holds `numbering_options` and `style`, each the key-by-key merge of that nested hash |
| DeepMerge.FooterNestedPrecedence | lib/thousand_island/utilities/utilities.rb:46-49 | within `footer.numbering_options` and `footer.style`, each key comes from the first source whose nested hash defines it |
| DeepMerge.NoSourcesEmptyFooter | lib/thousand_island/utilities/utilities.rb:43-52 | with no sources the footer is `{}`, because the nested keys are only created while visiting a source |
| DeepMerge.FalsyNestedCannotErase | lib/thousand_island/utilities/utilities.rb:48-52 | a nil or false `footer.style`/`footer.numbering_options` in a higher source leaves the merge of the lower sources in place |
| DeepMerge.FooterAsTwoParts | lib/thousand_island/utilities/utilities.rb:29-32 | the merged footer is the branch overlay with `numbering_options` and `style` replaced by their deep merges |
| DeepMerge.NoNestedKeysMerge | lib/thousand_island/utilities/utilities.rb:34-40 | with no listed nested keys, a branch is merged purely key by key |
| DeepMergeExamples.UnlistedNestedReplacedWholesale | lib/thousand_island/utilities/utilities.rb:50 | a footer hash under an unlisted key is replaced whole by the higher source; the lower source's entries do not show through |
| DeepMergeExamples.ExampleHeader | spec/thousand_island/utilities/utilities_spec.rb:58-61 | the header of the three-source example is the top source's `{height: 50, repeated: true}` |
| DeepMergeExamples.ExampleBody | spec/thousand_island/utilities/utilities_spec.rb:75 | the body of the three-source example is `{}` |
| DeepMergeExamples.ExampleFooterBranch | spec/thousand_island/utilities/utilities_spec.rb:62-74 | key by key, the example's footer takes height and repeated from the top source and `number_pages`/`numbering_string` from the lowest |
| DeepMergeExamples.ExampleNumberingOptions | spec/thousand_island/utilities/utilities_spec.rb:65-68 | the example's `numbering_options` take `align` from the top source and `start_count_at` from the middle one |
| DeepMergeExamples.ExampleStyle | spec/thousand_island/utilities/utilities_spec.rb:71-73 | the example's footer style is the top source's `{font_size: 5}` |
| DeepMergeExamples.ExampleFooter | spec/thousand_island/utilities/utilities_spec.rb:62-74 | the example's whole merged footer is the expected hash |
| DeepMergeExamples.ThreeSourceExample | spec/thousand_island/utilities/utilities_spec.rb:56-79 | merging `over`, `options`, `default` gives exactly the expected hash of the test |
| StyleHashes.New | lib/thousand_island/utilities/style_hash.rb:7-10 | a new StyleHash stores exactly the given entries, and reads back each value that is not shadowed by an alias |
| StyleHashes.Merge | lib/thousand_island/style_sheet.rb:48 | merging into a StyleHash keeps its class and holds the keys of both hashes |
| StyleHashes.FontSizeIsSize | lib/thousand_island/utilities/style_hash.rb:13 | reading `font_size` through `StyleHash#[]` (`StyleHashes.Get`) gives the stored `size`, and nil when there is none |
| StyleHashes.StylesWrapsStyle | lib/thousand_island/utilities/style_hash.rb:14 | reading `styles` gives the stored `style` in a one-element Array, which is `[nil]` when `style` is absent |
| StyleHashes.OtherKeysPlain | lib/thousand_island/utilities/style_hash.rb:15 | every other key reads as in a plain Hash: the stored value, or nil |
| StyleHashes.StoredFontSizeShadowed | lib/thousand_island/utilities/style_hash.rb:13 | a value stored under `font_size` itself cannot be read back unless it equals `size` |
| StyleHashes.MergeGet | lib/thousand_island/utilities/style_hash.rb:12-16 | reading a merged StyleHash: the merged-in hash wins on its keys, and the aliases follow the merged `size` and `style` |
| StyleHashes.TestExample | spec/thousand_island/utilities/style_hash_spec.rb:3-27 | `{size: 1, style: 2, other: 3}` reads nil for a made-up key, 1, 2 and 3 for its keys, `font_size` 1 and `styles` `[2]` |
| StyleSheet.DefaultStyle | lib/thousand_island/style_sheet.rb:32-41 | the default style is exactly size 10, style normal, align left, leading 1, inline_format true and color `000000`, so `font_size` reads 10 and `styles` reads `[:normal]` |
| StyleSheet.BodyStyle | lib/thousand_island/style_sheet.rb:43-45 | `body_style` reads exactly as the default style on every key |
| StyleSheet.Scaled | lib/thousand_island/style_sheet.rb:47-96 | a derived style exists exactly when Ruby's `*` accepts the base size, and raises what `*` raises otherwise; its `size` is that product, and it holds the base keys, `size` and the overrides |
| StyleSheet.StyleFor | lib/thousand_island/style_sheet.rb:32-96 | exactly default, body, h1 to h6 and footer have a style method; `StyleSheet.H1Style` to `StyleSheet.FooterStyle` are `Scaled` with the factors 2.5, 2.14, 1.7, 1.3, the Integer 1, 0.85 and 0.8 and their listed overrides |
| StyleSheet.ScaledSize | lib/thousand_island/style_sheet.rb:47-96 | a derived size is the base size times the factor, read the same through `size` and `font_size`; it stays an Integer only for an Integer factor |
| StyleSheet.ScaledKeepsOthers | lib/thousand_island/style_sheet.rb:47-96 | whenever the derived style exists (a numeric, String or Array size), every key it does not set keeps the base style's value |
| StyleSheet.ScaledOverrides | lib/thousand_island/style_sheet.rb:47-96 | whenever the derived style exists (a numeric, String or Array size), the keys it sets take its own values, whatever the base said |
| StyleSheet.H5IsBase | lib/thousand_island/style_sheet.rb:77-81 | `h5_style` equals the default style itself, since multiplying by the Integer 1 keeps the size unchanged |
| StyleSheet.H1OfDefault | spec/thousand_island/style_sheet_spec.rb:5-16 | with the default style, `h1_style` stores size 25.0, bold, align left, leading 8, inline_format true and color `000000` |
| StyleSheet.CustomSizeCascades | lib/thousand_island/style_sheet.rb:47-53 | a base size of 12 gives an `h1_style` of 30.0 and a grey, centred `footer_style` of 9.6: changing the base scales the derived styles |
| StyleSheet.HeadingsNeedSize | lib/thousand_island/style_sheet.rb:47-96 | all derived styles exist exactly when the base size is a number, a String or an Array; for any other size (nil, a boolean, a Symbol, a Hash) each of them raises NoMethodError |
| StyleSheet.StringSizeRepeats | lib/thousand_island/style_sheet.rb:47-96 | a String base size `'12'` is repeated, not scaled: `h1_style` gets size `'1212'` and `footer_style` size `''` |
| StyleSheet.IndexOf | lib/thousand_island/style_sheet.rb:100 | the search used by `sub` finds the first occurrence of the pattern, or reports that there is none |
| StyleSheet.SubFirst | lib/thousand_island/style_sheet.rb:100 | `sub(pat, '')` leaves a string without the pattern unchanged; otherwise it removes exactly the first occurrence and keeps what is before and after it, so putting the pattern back there gives the string again |
| StyleSheet.AvailableStyles | lib/thousand_island/style_sheet.rb:98-102 | the loop appends, in method order, the stem of every `_style` method except `default` |
| StyleSheet.StyleNamesMembers | lib/thousand_island/style_sheet.rb:98-102 | a name is available exactly when some `_style` method other than `default_style` yields it |
| StyleSheet.DefaultStyleSkipped | lib/thousand_island/style_sheet.rb:101 | `default_style` contributes no available style |
| StyleSheet.DefaultAvailableStyles | lib/thousand_island/style_sheet.rb:98-105 | the available styles are exactly body, h1 to h6 and footer, so h9 is not among them; their order is that of `StyleSheet.StyleMethods`, an assumed definition order, because `instance_methods` promises none |
| BaseComponent.New | lib/thousand_island/components/base.rb:7-10 | with Base's empty defaults (`BaseComponent.Defaults`), the options are exactly those passed |
| BaseComponent.RenderAll | lib/thousand_island/components/base.rb:20-24 | `render_all` wraps the render in exactly one `repeat(:all)`; a render that raises makes it raise |
| BaseComponent.Draw | lib/thousand_island/components/base.rb:12-18 | `draw` repeats the render when `repeated?` is truthy and renders once otherwise; a raising `repeated?` raises first |
| BaseComponent.Render | lib/thousand_island/components/base.rb:26-28 | Base's `render` raises NotImplementedError |
| BaseComponent.Repeated | lib/thousand_island/components/base.rb:30-32 | Base's `repeated?` raises NotImplementedError |
| BaseComponent.DrawRendersOnce | lib/thousand_island/components/base.rb:12-24 | a draw succeeds exactly when its render does, and emits the render's events once, wrapped in `repeat(:all)` when repeated |
| BaseComponent.BaseDrawRaises | lib/thousand_island/components/base.rb:12-18 | a plain Base component cannot be drawn: `repeated?` raises before anything is emitted |
| HeaderComponent.New | lib/thousand_island/components/header.rb:7-10 | the header holds its defaults and the passed keys, the passed values overriding the defaults |
| HeaderComponent.Render | lib/thousand_island/components/header.rb:26-30 | the header is one box at `[0, bounds.height]`, as wide as the bounds and `header_height` tall, holding the block's events |
| HeaderComponent.Draw | lib/thousand_island/components/header.rb:12-24 | the header box is repeated on all pages when `repeated?` (`HeaderComponent.Repeated`) is truthy and drawn once otherwise |
| HeaderComponent.DefaultHeader | lib/thousand_island/components/header.rb:36-43 | with no options the header takes its instance defaults (`HeaderComponent.Defaults`): it is 33 tall and repeated on every page |
| HeaderComponent.CustomHeight | spec/thousand_island/components/header_spec.rb:26-32 | a custom `header_height` of 20 sizes the box 20 tall, and the other defaults stay |
| HeaderComponent.NotRepeatedDrawnOnce | lib/thousand_island/components/header.rb:12-18 | a header with `repeated: false` is drawn once, without `repeat(:all)` |
| FooterComponent.New | lib/thousand_island/components/base.rb:7-10 | a footer's options are exactly those passed, because the inherited instance defaults are empty |
| FooterComponent.Col1Width | lib/thousand_island/components/footer.rb:21-23 | col1 is 15% of the bounds width |
| FooterComponent.Col2Width | lib/thousand_island/components/footer.rb:25-27 | col2 is 70% of the bounds width |
| FooterComponent.Col3Width | lib/thousand_island/components/footer.rb:29-31 | col3 is 15% of the bounds width |
| FooterComponent.Col3Start | lib/thousand_island/components/footer.rb:47 | col3 starts at col1's width plus col2's width |
| FooterComponent.ColumnsTile | lib/thousand_island/components/footer.rb:21-31 | in exact arithmetic the columns tile the width: col3 ends at the right edge and col1 and col3 are equal |
| FooterComponent.SupportedEntries | lib/thousand_island/components/footer.rb:39-41 | the style calls made are exactly the style entries the renderer responds to, with their values |
| FooterComponent.ApplyStyle | lib/thousand_island/components/footer.rb:39-41 | the loop over the style entries makes exactly the calls for the supported entries, with their values; the order of the calls is not modelled (see Left out) |
| FooterComponent.NumberingOptions | lib/thousand_island/components/footer.rb:53-55 | the numbering options are the style with `numbering_options` merged over it; a missing style raises NoMethodError and a non-Hash numbering option TypeError |
| FooterComponent.RenderSucceeds | lib/thousand_island/components/footer.rb:13-19 | `FooterComponent.Render`, through `Col2` and `Col3`, succeeds exactly when the style is a Hash and, if pages are numbered, the numbering options are a Hash too; an Array style is treated as raising (see Left out) |
| FooterComponent.RenderLayout | lib/thousand_island/components/footer.rb:13-48 | `FooterComponent.Render` makes one outer box at `[0, 0]` across the bounds, holding `Col2` and `Col3`, all `height` tall; col2 applies the supported style entries and then the content |
| FooterComponent.PageNumbersGated | lib/thousand_island/components/footer.rb:49 | col3 holds page numbers exactly when `number_pages?` (`FooterComponent.NumberPagesOption`) is truthy, with `numbering_string` (`FooterComponent.NumberingString`) and the numbering options |
| FooterComponent.ClassDefaultsFooter | lib/thousand_island/components/footer.rb:61-78 | a footer made from `Footer.defaults` (`FooterComponent.ClassDefaults`, with `FooterComponent.ClassNumberingOptions`) renders, numbers pages with `<page>`, aligned right from 1, and is repeated |
| FooterComponent.Draw | lib/thousand_island/components/base.rb:12-18 | a footer draw succeeds exactly when its render does; it is repeated on all pages when the footer's `repeated?` (`FooterComponent.Repeated`) is truthy and drawn once otherwise |
| FooterComponent.NumberingOverridesStyle | lib/thousand_island/components/footer.rb:53-55 | a numbering option overrides the style entry of the same key, and other style entries pass through |
| FooterComponent.MissingStyleRaises | lib/thousand_island/components/footer.rb:39 | a footer without a style cannot render and raises NoMethodError |
| BodyComponent.New | lib/thousand_island/components/base.rb:7-10 | a body's options are exactly those passed |
| BodyComponent.ClassDefaults | lib/thousand_island/components/body.rb:12-15 | `Body.defaults` is empty |
| BodyComponent.Render | lib/thousand_island/components/body.rb:5-10 | the body is one box at `[0, top]`, `height` tall and as wide as the bounds, holding the block's events |
| BodyComponent.DrawRaises | lib/thousand_island/components/body.rb:3-16 | `BodyComponent.Draw`, the body's draw as written, raises NotImplementedError for every body |
| BodyComponent.DrawOnce | lib/thousand_island/components/base.rb:12-18 | the intended draw of a body renders its box once |
| BodyComponent.PlacedByOptions | spec/thousand_island/components/body_spec.rb:17-22 | a body with top 787 and height 734 is placed there |
| Templates.ComponentDefaults | lib/thousand_island/template.rb:200-208 | the component defaults hold the three branches, with the footer's `style` replaced by the style sheet's `footer_style` |
| Templates.KlassDefaults | lib/thousand_island/template.rb:202-204 | Footer and Body answer the class method `defaults`, and Header raises NoMethodError |
| Templates.ComponentDefaultsAsWrittenRaises | lib/thousand_island/template.rb:200-208 | `Templates.ComponentDefaultsAsWritten`, the code as written, raises NoMethodError whatever the style sheet |
| Templates.StandardComponentDefaultsShaped | lib/thousand_island/template.rb:200-208 | `Templates.StandardComponentDefaults`, the intended component defaults, can be merged, hold the Header's defaults and carry the footer style and footer height 33 |
| Templates.SetupDocumentOptions | lib/thousand_island/template.rb:195-197 | the document options are the merge of options, settings, defaults and component defaults in that precedence, with all three branches hashes; `Templates.DocumentOptions` is that merge with the library's own `defaults` |
| Templates.RubyAdd | lib/thousand_island/template.rb:181 | `a + b` succeeds exactly on two numbers, giving their exact sum; `nil + x` raises NoMethodError |
| Templates.Space | lib/thousand_island/template.rb:180-188 | a region reserves `height + padding` when it is rendered and 0 otherwise; `Templates.HeaderSpace` is this for the header with `bottom_padding`, `Templates.FooterSpace` for the footer with `top_padding` |
| Templates.BodyStart | lib/thousand_island/template.rb:172-174 | the body starts at the page height less the header's space, and fails when the header space does |
| Templates.LessFooterSpace | lib/thousand_island/template.rb:177 | a body start less the footer space, and failure when either fails |
| Templates.BodyHeight | lib/thousand_island/template.rb:176-178 | the body height is the body start less the footer's space |
| Templates.WithBodyTop | lib/thousand_island/template.rb:168 | writing `top` into the body keeps the three branches hashes |
| Templates.WithBodyBounds | lib/thousand_island/template.rb:167-170 | writing `top` and `height` into the body keeps the three branches hashes |
| Templates.BodyBoundsOnlyTouchBody | lib/thousand_island/template.rb:167-170 | the bounds calculation changes nothing but the body's `top` and `height` |
| Templates.BodyGeometry | lib/thousand_island/template.rb:167-188 | the body `top` is page height minus header space, and its height is page height minus both spaces |
| Templates.SpaceIsZeroUnlessRendered | lib/thousand_island/template.rb:180-188 | a non-zero space implies the region is rendered, and a rendered region reserves its height plus padding |
| Templates.A4Example | lib/thousand_island/template.rb:167-188 | an 840-tall page with a 33 + 20 header and footer gives a body starting at 787 and 734 tall |
| Templates.NegativeHeightExample | lib/thousand_island/template.rb:176-178 | nothing keeps the body height positive: a 100-tall page with those regions gives -6 |
| Templates.NoHeaderNoFooter | lib/thousand_island/template.rb:180-188 | without rendered header and footer the body spans the whole page height |
| Templates.DefaultsShaped | lib/thousand_island/template.rb:246-260 | the template `defaults` (`Templates.Defaults`) have branches that can be merged |
| Templates.ComponentDefaultsShaped | lib/thousand_island/template.rb:200-208 | component defaults built from a footer default whose numbering options are a hash can be merged |
| Templates.DefaultSettings | lib/thousand_island/template.rb:130-132 | the stock `settings` is `{}`, and so gives no header |
| Templates.StockSettingsHeaderRaises | lib/thousand_island/template.rb:130-132 | with the stock `settings` and options that give no header, a rendered header's space raises NoMethodError |
| Templates.HeaderDefaultsLackHeight | lib/thousand_island/template.rb:181 | when neither the options nor `settings` give a header, the merged header is rendered but has no `height`, so its space raises NoMethodError |
| Templates.DefaultHeaderBranches | lib/thousand_island/template.rb:252-254 | `defaults` give the header only `render: true`, and the component defaults give it no `height` |
| Templates.NoHeightRaises | lib/thousand_island/template.rb:181 | a rendered header without `height` cannot be measured |
| Templates.OptionPrecedence | lib/thousand_island/template.rb:195-197 | for a top-level key, constructor options win over `settings`, which win over `defaults`, which win over the component defaults |
| Templates.PrecedenceOfFour | lib/thousand_island/template.rb:196 | a top-level key of a four-source merge comes from the first of the four sources defining it |
| Templates.SetupExample | spec/thousand_island/template_spec.rb:7-13 | with the stock `settings`, options `{op_one: 1, op_two: 2}` over defaults `{op_two: 22, op_three: 3}` give 1, 2 and 3, together with the three branches the test leaves out |
| Templates.FooterStyleFromStyleSheet | lib/thousand_island/template.rb:206 | the footer's default style is the style sheet's `footer_style` |
| Templates.RenderWithStyle | lib/thousand_island/template.rb:241-244 | a style shortcut writes one text call whose style is the StyleHash itself |
| Templates.MethodMissing | lib/thousand_island/template.rb:263-270 | a name with a `<name>_style` method writes its first argument in that style; a style method that raises (`h1` with no base size) makes the call raise the same error; any other name raises NoMethodError |
| Templates.ShortcutIffAvailable | lib/thousand_island/template.rb:263-274 | apart from `default`, a name is a style shortcut exactly when `respond_to_missing?` (`Templates.RespondToMissing`) reports it |
| Templates.H1Shortcut | spec/thousand_island/template_spec.rb:39-46 | `h1` is reported, and `h1 'Test Text'` writes the text in `h1_style` |
| Templates.H9NotShortcut | spec/thousand_island/template_spec.rb:48-50 | `h9` is not reported, and calling it raises NoMethodError |
| Templates.DefaultShortcutDisagrees | lib/thousand_island/template.rb:263-274 | `default` is not reported by `respond_to?`, yet `default 'x'` writes text in the default style |
| Templates.Content | lib/thousand_island/template.rb:135-152 | a region's content is the first callback's events followed by the second's |
| Templates.Template.constructor | lib/thousand_island/template.rb:97-99 | a new template holds the merged options, the document's bounds, its content and its style sheet's `default_style`, with nothing memoised |
| Templates.Template.GetBodyStart | lib/thousand_island/template.rb:172-174 | `body_start` is computed once and then returned from its memo |
| Templates.Template.GetBodyHeight | lib/thousand_island/template.rb:176-178 | `body_height` is computed once from the body start, taken from its memo or computed and memoised now, and is then returned from its own memo |
| Templates.Template.CalculateBounds | lib/thousand_island/template.rb:167-170 | writes the body `top` and then `height`; a failure leaves what was written before it and reports the error; afterwards `@body_start` and `@body_height` hold the computed values, or stay unset where the computation failed |
| Templates.Template.DrawHeader | lib/thousand_island/template.rb:141-146 | the header is drawn with the template's content and then the block, and nothing is drawn when `render_header?` (`Templates.Template.RenderHeader`) is falsy |
| Templates.Template.DrawFooter | lib/thousand_island/template.rb:148-153 | the footer is drawn with the block and then the template's content, and nothing is drawn when `render_footer?` (`Templates.Template.RenderFooter`) is falsy |
| Templates.Template.DrawBody | lib/thousand_island/template.rb:134-139 | corrected: with the intended draw-once body of the first finding, the body is drawn with the template's content and then the block; as written it raises |
| Templates.Template.DrawBodyAsWrittenRaises | lib/thousand_island/template.rb:134-139 | `Templates.Template.DrawBodyAsWritten`, the draw as written, raises NotImplementedError for any template |
| Templates.Template.BodyContentFirst | lib/thousand_island/template.rb:135-138 | the body box holds the template's `body_content` before the caller's block |
| Templates.Template.HeaderContentFirst | lib/thousand_island/template.rb:142-145 | the header box holds the template's `header_content` before the caller's block, repeated or not |
| Templates.Template.FooterBlockFirst | lib/thousand_island/template.rb:149-152 | the footer's middle column holds the caller's block before `footer_content`, after the style calls |
| Templates.NewTemplate | lib/thousand_island/template.rb:97-101 | parameterised: with the component defaults passed in (the stock `component_defaults` raises, second finding), `Template.new` succeeds exactly when the body height can be computed and otherwise raises `Templates.NewTemplateError`; the template holds the computed bounds in its body options and in its memos |
| Templates.NewTemplateError | lib/thousand_island/template.rb:167-188 | the constructor's error is the header space's error when the body start fails, and the footer space's when only it fails; there is none exactly when the body height can be computed |
| Tables.Assembled | lib/thousand_island/table.rb:81-86 | the table data is the header rows, then the body rows, then the footer rows, each in order |
| Tables.HeaderSetting | lib/thousand_island/table.rb:97-100 | the header setting is false exactly when there are no header rows or `header_repeat` is exactly false; otherwise it is the header row count |
| Tables.PrawnOptions | lib/thousand_island/table.rb:102-104 | only the six renderer option keys are kept, with their values unchanged |
| Tables.HeaderRepeatsUnlessFalse | lib/thousand_island/table.rb:98 | with header rows, the header repeats exactly when `header_repeat` is not false, nil included |
| Tables.HeaderRowsExample | spec/thousand_island/table_spec.rb:64-86 | the two header rows of the test repeat unless `header_repeat: false` is passed |
| Tables.PrawnOptionsIdempotent | lib/thousand_island/table.rb:102-104 | filtering twice changes nothing, and the `header` entry always survives |
| Tables.TableClass.constructor | lib/thousand_island/table.rb:17 | a table class starts with no settings class |
| Tables.TableClass.TableSettingsKlass | lib/thousand_island/table.rb:19-21 | the settings class is TableSettings until one is set, and the default is then remembered |
| Tables.TableClass.UsesSettings | lib/thousand_island/table.rb:23-25 | `uses_settings(k)` makes `k` the settings class |
| Tables.Table.constructor | lib/thousand_island/table.rb:28-31 | a new table has empty row lists and empty options |
| Tables.Table.Settings | lib/thousand_island/table.rb:33-35 | a table's `settings` are empty |
| Tables.Table.SetBodyRows | lib/thousand_island/table.rb:51-54 | only an Array is stored; anything else raises ArgumentError and leaves the rows unchanged |
| Tables.Table.SetHeaderRows | lib/thousand_island/table.rb:60-63 | only an Array is stored; anything else raises ArgumentError and leaves the rows unchanged |
| Tables.Table.SetFooterRows | lib/thousand_island/table.rb:69-72 | only an Array is stored; anything else raises ArgumentError and leaves the rows unchanged |
| Tables.Table.NumHeaderRows | lib/thousand_island/table.rb:92-94 | the count of header rows |
| Tables.Table.NumFooterRows | lib/thousand_island/table.rb:88-90 | the count of footer rows |
| Tables.Table.PrawnHeaderSetting | lib/thousand_island/table.rb:97-100 | the header setting is false or the number of header rows |
| Tables.Table.OptionsForPrawn | lib/thousand_island/table.rb:102-104 | only renderer option keys are passed on |
| Tables.Table.TableData | lib/thousand_island/table.rb:81-86 | returns header, body and footer rows in order, and the body list itself becomes that whole list; header and footer rows are unchanged |
| Tables.Table.Draw | lib/thousand_island/table.rb:37-43 | the merged options become `table_options` with `header` set to the header setting, and one `table` call is made with the assembled rows and filtered options |
| Tables.DrawnHeaderOption | lib/thousand_island/table.rb:41 | after `draw`, the renderer's `header` option is the header setting, whatever the merged options said |
| Tables.AssembledFrames | lib/thousand_island/table.rb:81-100 | the assembled rows begin with the header rows and end with the footer rows, so a numeric header setting covers exactly the header rows |
| Documents.DocumentDefaults | lib/thousand_island/document.rb:20-29 | the defaults are A4, portrait, left and right margins 54, top margin 56 and bottom margin 80 |
| Documents.SetupDocumentOptions | lib/thousand_island/document.rb:16-18 | passed options override the defaults key by key; keys only in the defaults are kept and keys only in the options added |
| Documents.New | lib/thousand_island/document.rb:6-9 | a document's options are its options merged over the document defaults |
| Documents.ShallowMerge | lib/thousand_island/document.rb:17 | the merge is shallow: a passed hash replaces a default hash whole, and its keys do not survive |
| Documents.NoOptionsDefaults | lib/thousand_island/document.rb:6-9 | with no options a document uses exactly its defaults |
| Documents.SetupIdempotent | lib/thousand_island/document.rb:17 | merging the same options a second time changes nothing |
| Documents.SetupExample | spec/thousand_island/document_spec.rb:6-12 | `{op_one: 1, op_two: 2}` over `{op_two: 22, op_three: 3}` is `{op_one: 1, op_two: 2, op_three: 3}` |
| Builders.BuilderClass.constructor | lib/thousand_island/builder.rb:69-70 | a builder class starts with no template class |
| Builders.BuilderClass.TemplateKlass | lib/thousand_island/builder.rb:72-75 | the template class raises TemplateRequiredError, with its message, exactly when none was registered, and is the registered one otherwise |
| Builders.BuilderClass.UsesTemplate | lib/thousand_island/builder.rb:77-79 | after `uses_template(k)`, the template class is `k` |
| Builders.ForwardStyle | lib/thousand_island/builder.rb:132-138 | a shortcut is forwarded to the template, in its own `default_style`, only for an available style (`Builders.RespondsToStyle`, the builder's `respond_to_missing?`), and anything else raises NoMethodError |
| Builders.ForwardHeading | lib/thousand_island/builder.rb:132-134 | `h1 'Heading'` on a builder writes the text in the template's `h1_style` |
| Builders.DefaultNotForwarded | lib/thousand_island/builder.rb:132-142 | `default 'x'` is not forwarded even though the template itself would accept it |
| Builders.ForwardAgreesWithTemplate | lib/thousand_island/builder.rb:132-138 | apart from `default`, the builder forwards exactly the calls its template answers, with the same result |
| Builders.Built | lib/thousand_island/builder.rb:90-96 | corrected: with the intended body draw, a build of a constructed template succeeds exactly when the footer can be drawn, and ends with `render` |
| Builders.BodyDrawnFirst | lib/thousand_island/builder.rb:90-96 | corrected: with the intended body draw, the build begins with the body box, holding the template's body content before the builder's |
| Builders.BodyOnlyBuild | lib/thousand_island/builder.rb:90-96 | corrected: with the intended body draw and without rendered header and footer, the build is the body box and then `render` |
| Builders.Instantiate | lib/thousand_island/builder.rb:125 | parameterised by the class's component defaults: `klass.new` raises exactly the error `Templates.NewTemplateError` gives, and otherwise makes a fresh template with the requested bounds and the class's content and style |
| Builders.Builder.constructor | lib/thousand_island/builder.rb:82-83 | a new builder holds its class and content, with no template made yet |
| Builders.Builder.Settings | lib/thousand_island/builder.rb:98-100 | a builder's `settings` are empty |
| Builders.Builder.Filename | lib/thousand_island/builder.rb:85-87 | the default file name is not empty |
| Builders.Builder.Template | lib/thousand_island/builder.rb:123-129 | the template is made once from the registered class and then reused; with no class registered it raises TemplateRequiredError, and when the class's `new` raises it raises that error; in both cases it stays unmade |
| Builders.Builder.Build | lib/thousand_island/builder.rb:90-96 | corrected and parameterised as `Built`: a build raises TemplateRequiredError without a template class, and the construction error when the template cannot be made; otherwise it is the body, header and footer of its template followed by `render` |
| Builders.Builder.MethodMissing | lib/thousand_island/builder.rb:132-138 | a shortcut first makes the template and raises when that fails; otherwise it is forwarded in the template's own style, as `ForwardStyle` says |

## Left out

- Prawn itself is not modelled: drawing returns the renderer calls as events, and `pdf.bounds` is a parameter (`Events.Bounds`). The content a Prawn page ends up with, page breaks, the number of pages and `render`'s output are outside the model.
- `Template#setup_prawn_document` and `Document#setup_prawn_document` make a `Prawn::Document`. The model keeps only the options passed to it, and takes the bounds of the resulting document as a parameter.
- `Table#merged_options`, `Table#table_settings`, `Table#deep_merger` and `table_settings.rb` are not part of this model. They depend on `Utilities::DeepMerge::TableOptions`, which `utilities.rb` does not define. `Tables.Table.Draw` takes the options after that merge as its parameter.
- The row-styling block of `Table#draw` (`table.rb:43-48`) manipulates Prawn cells and is not modelled.
- Tables.Table.SetBodyRows: stores the rows by value, so aliasing between the caller's array and `@body_rows` is not modelled; the caller does not see `table_data`'s in-place `unshift`/`<<`. The in-place effect on the table itself is modelled: after `draw`, `bodyRows` is the whole table, so a second `draw` repeats the header and footer rows.
- Tables.Table.TableData: one Array passed to both `body_rows=` and `footer_rows=` is not modelled. In Ruby, `footer_rows.each{ |row| data << row }` at `table.rb:84` would then append to the Array it is iterating, so `draw` never returns. The model keeps the lists apart and returns header, body and footer rows.
- Tables.Table.SetBodyRows and Tables.Table.SetHeaderRows: the same sharing between `body_rows=` and `header_rows=` is not modelled. There, `unshift` at `table.rb:83` grows the header list while `reverse_each` walks it.
- The readers `body_rows`, `header_rows` and `footer_rows` memoise `[]` on first read; the model starts the lists as `[]`, which reads the same.
- Footer and Body call `pdf`, which Base does not define (Base has `document`). The model reads the document as the renderer passed in.
- The component object memos (`@header`, `@footer`, `@body`) are not modelled. The components are built from the options at each draw, and since the options do not change after construction, a memo would hold the same values.
- Builder's `@pdf` is not modelled; `build` ends with the `Render` event.
- `Builder#initialize(data)` ignores its argument, and so does the model.
- `Builder#respond_to_missing?` is the predicate `Builders.RespondsToStyle`, and `Template#respond_to_missing?` is `Templates.RespondToMissing`. `respond_to?`, `send`, `define_method` and `instance_methods.grep` are replaced by membership in explicit lists of names.
- The available styles are computed for the default StyleSheet method list (`StyleSheet.StyleMethods`). A custom style sheet with further `_style` methods is not modelled, though `StyleSheet.StyleNames` and `StyleSheet.StyleNamesMembers` hold for any list. A style sheet overriding `default_style` becomes the `base` parameter of the style functions, and the `defaultStyle` of a template and of a builder's template class.
- Templates.RubyAdd: `+` on a String or an Array operand is reported as TypeError without distinguishing concatenation, since the options never hold such values for heights and paddings.
- Floats are exact reals. The factors 2.5, 2.14, 1.7, 1.3, 0.85, 0.8, 0.15 and 0.7 are their decimal values, so rounding (for example in 0.15 + 0.7 + 0.15) is not modelled.
- Option hashes whose `header`, `footer` or `body` is truthy but not a Hash, or whose footer `numbering_options`/`style` is, make Ruby's `merge!` raise. The merge requires `DeepMerge.WellShaped` of its sources instead of modelling that TypeError.
- Resolving the same style twice yields equal values because `StyleSheet.StyleFor` is a function; no separate lemma states it.
- The template's `settings`, `defaults` and `component_defaults` are methods a subclass may override, so the constructor takes their results as parameters. `Templates.NewTemplate` uses the library's own `defaults`.
- Builders.Builder.Filename: states only that the default file name is non-empty, not the literal `'default_filename'`, since stating the literal would only repeat the body.
- FooterComponent.Col2: a style that is not a Hash is treated as raising NoMethodError. An Array style also answers `each`, so Ruby iterates it: `[]` makes no calls, and a pair `[k, v]` becomes `send(k, v)`. `Footer.new(pdf, {style: [], number_pages: false})` therefore renders in Ruby but raises in the model. Only Hash styles are modelled because the library's defaults and `footer_style` always give one.
- FooterComponent.RenderSucceeds: states when the footer renders under that treatment of non-Hash styles, so an Array style counts as a failure.
- FooterComponent.ApplyStyle: option hashes are maps, so the insertion order that Ruby's `each` follows is lost. `Events.StyleCalls` records which `send(k, v)` calls are made and with which values, not their order.
- StyleSheet.StyleMethods: the style methods are listed in definition order. `instance_methods` (`style_sheet.rb:99`) does not promise that order, so the order of `available_styles` is a modelling choice; which names are available does not depend on it.
- Values.Times: a repeat count too large to allocate (Ruby's ArgumentError "argument too big") is not modelled.
- Builders.Built, Builders.BodyDrawnFirst, Builders.BodyOnlyBuild and Builders.Builder.Build describe the build with the corrected body draw. As written, `build` raises NotImplementedError at `draw_body` (first finding). With the stock `component_defaults`, `Template.new` already raises NoMethodError (second finding). The builder's template class therefore supplies its component defaults.
- Error class declarations (`lib/thousand_island.rb`) and the documentation examples in comments are not modelled.

## Findings

| source | as written | input that shows it | evidently intended | confidence | as-written member | corrected member |
|---|---|---|---|---|---|---|
| lib/thousand_island/components/body.rb:3-16 | Body defines no `repeated?`, so `draw` reaches Base's `repeated?`, which raises NotImplementedError | any body, e.g. `Template#draw_body` on a default template | the body is drawn once, not repeated | high, not executed | BodyComponent.Draw, shown by BodyComponent.DrawRaises and Templates.Template.DrawBodyAsWrittenRaises | BodyComponent.DrawOnce, used by Templates.Template.DrawBody |
| lib/thousand_island/template.rb:203 | `header_klass.defaults` calls a class method Header does not define (it has only an instance `defaults`), so `component_defaults` raises NoMethodError | any style sheet; every `Template.new` | the Header's defaults, as for Footer and Body | high, not executed | Templates.ComponentDefaultsAsWritten, shown by Templates.ComponentDefaultsAsWrittenRaises | Templates.StandardComponentDefaultsShaped on Templates.StandardComponentDefaults |
