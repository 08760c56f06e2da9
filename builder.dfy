/** `ThousandIsland::Builder`: the class-level template registry, the memoised
    template, the fixed build sequence and the forwarding of style shortcuts. */
module Builders {
  import opened Values
  import opened Events
  import opened DeepMerge
  import StyleHashes
  import StyleSheet
  import Templates

  const TemplateRequiredMessage: string := "Builders must set a Template class with #uses_template in the Class body"

  /** A template class: its `settings`, the component defaults it merges under
      them, its content methods when it defines them, and the `default_style`
      of its style sheet. */
  datatype TemplateClass = TemplateClass(
    settings: Options,
    componentDefaults: Options,
    headerContent: Option<seq<Event>>,
    bodyContent: Option<seq<Event>>,
    footerContent: Option<seq<Event>>,
    defaultStyle: StyleHashes.StyleHash)

  /** The option hashes of a template class have the shape the merge needs. */
  predicate Usable(k: TemplateClass) {
    WellShaped(k.settings) && WellShaped(k.componentDefaults)
  }

  /** The class-level registry of a builder class. */
  class BuilderClass {
    /** `@template_klass` */
    var templateKlass: Option<TemplateClass>

    constructor ()
      ensures templateKlass == None
    {
      templateKlass := None;
    }

    predicate Valid()
      reads this
    {
      templateKlass.Some? ==> Usable(templateKlass.value)
    }

    /** `template_klass`: the registered class, or TemplateRequiredError when
        `uses_template` was never called. */
    function TemplateKlass(): (r: Result<TemplateClass>)
      reads this
      ensures r.Err? <==> templateKlass.None?
      ensures r.Err? ==> r.error == TemplateRequiredError(TemplateRequiredMessage)
      ensures r.Ok? ==> Some(r.value) == templateKlass
    {
      if templateKlass.None? then Err(TemplateRequiredError(TemplateRequiredMessage)) else Ok(templateKlass.value)
    }

    /** `uses_template(klass)` */
    method UsesTemplate(klass: TemplateClass)
      requires Usable(klass)
      modifies this
      ensures Valid() && templateKlass == Some(klass)
      ensures TemplateKlass() == Ok(klass)
    {
      templateKlass := Some(klass);
    }
  }

  /** `builder.respond_to?(name)` for a style: the name is an available style. */
  predicate RespondsToStyle(name: string) {
    name in StyleSheet.StyleNames(StyleSheet.StyleMethods)
  }

  /** The style shortcut the builder forwards to its template, whose style
      sheet's `default_style` is `base`: only available styles are forwarded,
      anything else is Ruby's NoMethodError. */
  function ForwardStyle(base: StyleHashes.StyleHash, name: string, arguments: seq<Value>): (r: Result<seq<Event>>)
    ensures !RespondsToStyle(name) ==> r == Err(NoMethodError)
    ensures RespondsToStyle(name) ==> r == Templates.MethodMissing(base, name, arguments)
  {
    if RespondsToStyle(name) then Templates.MethodMissing(base, name, arguments)
    else Err(NoMethodError)
  }

  /** `h1 'Heading'` on a builder writes the text in the template's `h1_style`. */
  lemma ForwardHeading()
    ensures ForwardStyle(StyleSheet.DefaultStyle(), "h1", [Str("Heading")]) ==
      Ok([Text(Str("Heading"), StyleSheet.H1Style(StyleSheet.DefaultStyle()).value)])
  {
    StyleSheet.H1OfDefault();
    Templates.H1Shortcut(StyleSheet.DefaultStyle());
  }

  /** `default 'x'`, which the template itself would accept, is not forwarded. */
  lemma DefaultNotForwarded()
    ensures ForwardStyle(StyleSheet.DefaultStyle(), "default", [Str("x")]) == Err(NoMethodError)
    ensures Templates.MethodMissing(StyleSheet.DefaultStyle(), "default", [Str("x")]).Ok?
  {
    Templates.DefaultShortcutDisagrees(StyleSheet.DefaultStyle());
  }

  /** Every forwarded call is one the template answers with text; apart from
      `default`, the builder and the template accept the same names. */
  lemma ForwardAgreesWithTemplate(base: StyleHashes.StyleHash, name: string, arguments: seq<Value>)
    requires name != "default"
    ensures ForwardStyle(base, name, arguments) == Templates.MethodMissing(base, name, arguments)
  {
    Templates.ShortcutIffAvailable(base, name);
  }

  /** What `build` produces from a constructed template: body, header and footer
      drawn in that order, with the builder's content blocks, then `render`. */
  function Built(t: Templates.Template, headerContent: Option<seq<Event>>, bodyContent: Option<seq<Event>>,
                 footerContent: Option<seq<Event>>, supported: set<Key>): (r: Result<seq<Event>>)
    requires t.Valid()
    reads t
    ensures r.Ok? <==> t.DrawFooter(footerContent, supported).Ok?
    ensures r.Ok? ==> |r.value| > 0 && r.value[|r.value| - 1] == Render
  {
    match t.DrawFooter(footerContent, supported)
    case Err(e) => Err(e)
    case Ok(footer) => Ok(t.DrawBody(bodyContent).value + t.DrawHeader(headerContent) + footer + [Render])
  }

  /** The body is drawn first: the build output begins with the body box, which
      holds the template's body content before the builder's. */
  lemma BodyDrawnFirst(t: Templates.Template, headerContent: Option<seq<Event>>, bodyContent: Option<seq<Event>>,
                       footerContent: Option<seq<Event>>, supported: set<Key>)
    requires t.Valid()
    requires Built(t, headerContent, bodyContent, footerContent, supported).Ok?
    ensures var r := Built(t, headerContent, bodyContent, footerContent, supported).value;
      r[0].BoundingBox? && r[0].inner == Contents(t.bodyContent) + Contents(bodyContent)
  {
    t.BodyContentFirst(bodyContent);
  }

  /** Without rendered header and footer, the build is the body box and `render`. */
  lemma BodyOnlyBuild(t: Templates.Template, headerContent: Option<seq<Event>>, bodyContent: Option<seq<Event>>,
                      footerContent: Option<seq<Event>>, supported: set<Key>)
    requires t.Valid() && !Truthy(t.RenderHeader()) && !Truthy(t.RenderFooter())
    ensures Built(t, headerContent, bodyContent, footerContent, supported) == Ok(t.DrawBody(bodyContent).value + [Render])
  {
    var body := t.DrawBody(bodyContent).value;
    assert body + [] + [] + [Render] == body + [Render];
  }

  /** The exception `klass.new(settings)` raises, if any. */
  function InstantiateError(klass: TemplateClass, settings: Options, bounds: Bounds): Option<Error> {
    Templates.NewTemplateError(settings, klass.settings, klass.componentDefaults, bounds)
  }

  /** `klass.new(settings)`: a template of the given class, with the given
      options over the class's settings and the class's content and style;
      it raises exactly when the template cannot compute its body bounds. */
  method Instantiate(klass: TemplateClass, settings: Options, bounds: Bounds) returns (r: Result<Templates.Template>)
    requires Usable(klass) && WellShaped(settings)
    ensures r.Err? <==> InstantiateError(klass, settings, bounds).Some?
    ensures r.Err? ==> Some(r.error) == InstantiateError(klass, settings, bounds)
    ensures r.Ok? ==> (fresh(r.value) && r.value.Valid() && r.value.bounds == bounds
      && r.value.headerContent == klass.headerContent && r.value.bodyContent == klass.bodyContent
      && r.value.footerContent == klass.footerContent && r.value.defaultStyle == klass.defaultStyle)
  {
    r := Templates.NewTemplate(settings, klass.settings, klass.componentDefaults, bounds,
                               klass.headerContent, klass.bodyContent, klass.footerContent, klass.defaultStyle);
  }

  class Builder {
    /** The builder's class and its registry. */
    const klass: BuilderClass
    /** The builder's `header_content`, `body_content` and `footer_content`
        when it defines them, as the events they issue. */
    const headerContent: Option<seq<Event>>
    const bodyContent: Option<seq<Event>>
    const footerContent: Option<seq<Event>>
    /** `@template`, with `@pdf` the document it made */
    var template: Templates.Template?

    constructor (klass: BuilderClass, headerContent: Option<seq<Event>>, bodyContent: Option<seq<Event>>,
                 footerContent: Option<seq<Event>>)
      ensures this.klass == klass && template == null
      ensures this.headerContent == headerContent && this.bodyContent == bodyContent && this.footerContent == footerContent
    {
      this.klass := klass;
      this.headerContent := headerContent;
      this.bodyContent := bodyContent;
      this.footerContent := footerContent;
      template := null;
    }

    predicate Valid()
      reads this, klass, template
    {
      klass.Valid() && (template != null ==> template.Valid())
    }

    /** `settings` */
    function Settings(): (r: Options)
      ensures |r| == 0 && WellShaped(r)
    {
      map[]
    }

    /** `filename` */
    function Filename(): (r: string)
      ensures |r| > 0
    {
      "default_filename"
    }

    /** `template`: made once, as `template_klass.new(settings)`, and reused. */
    method Template(bounds: Bounds) returns (r: Result<Templates.Template>)
      requires Valid()
      modifies this
      ensures Valid()
      ensures old(template) != null ==> r.Ok? && r.value == old(template) && template == old(template)
      ensures old(template) == null && klass.TemplateKlass().Err? ==>
        r == Err(TemplateRequiredError(TemplateRequiredMessage)) && template == null
      ensures r.Ok? ==> template == r.value
      ensures r.Err? ==> template == null
      ensures old(template) == null && klass.templateKlass.Some? ==>
        (r.Err? <==> InstantiateError(klass.templateKlass.value, Settings(), bounds).Some?)
        && (r.Err? ==> Some(r.error) == InstantiateError(klass.templateKlass.value, Settings(), bounds))
      ensures old(template) == null && r.Ok? ==> (fresh(r.value) && klass.templateKlass.Some?
        && r.value.bounds == bounds
        && r.value.headerContent == klass.templateKlass.value.headerContent
        && r.value.bodyContent == klass.templateKlass.value.bodyContent
        && r.value.footerContent == klass.templateKlass.value.footerContent
        && r.value.defaultStyle == klass.templateKlass.value.defaultStyle)
    {
      if template != null {
        var t: Templates.Template := template;
        return Ok(t);
      }
      var k := klass.TemplateKlass();
      if k.Err? {
        return Err(k.error);
      }
      assert k.value == klass.templateKlass.value;
      var t := Instantiate(k.value, Settings(), bounds);
      if t.Err? {
        return Err(t.error);
      }
      template := t.value;
      r := t;
    }

    /** `build`: draw the body, then the header, then the footer, then `render`. */
    method Build(bounds: Bounds, supported: set<Key>) returns (r: Result<seq<Event>>)
      requires Valid()
      modifies this
      ensures Valid()
      ensures old(template) == null && klass.templateKlass.None? ==>
        r == Err(TemplateRequiredError(TemplateRequiredMessage))
      ensures old(template) != null ==>
        template == old(template) && r == Built(template, headerContent, bodyContent, footerContent, supported)
      ensures old(template) == null && template != null ==>
        r == Built(template, headerContent, bodyContent, footerContent, supported)
      ensures template == null ==> r.Err?
      ensures old(template) == null && klass.templateKlass.Some? ==>
        InstantiateError(klass.templateKlass.value, Settings(), bounds).Some? ==>
        template == null && r == Err(InstantiateError(klass.templateKlass.value, Settings(), bounds).value)
    {
      var t := Template(bounds);
      if t.Err? {
        return Err(t.error);
      }
      var tpl := t.value;
      var body := tpl.DrawBody(bodyContent);
      var header := tpl.DrawHeader(headerContent);
      var footer := tpl.DrawFooter(footerContent, supported);
      if footer.Err? {
        return Err(footer.error);
      }
      r := Ok(body.value + header + footer.value + [Render]);
    }

    /** `method_missing(name, *arguments)`: a style shortcut, forwarded to the
        template when the name is an available style. */
    method MethodMissing(name: string, arguments: seq<Value>, bounds: Bounds) returns (r: Result<seq<Event>>)
      requires Valid()
      modifies this
      ensures Valid()
      ensures old(template) == null && klass.templateKlass.None? ==>
        r == Err(TemplateRequiredError(TemplateRequiredMessage))
      ensures template != null ==> r == ForwardStyle(template.defaultStyle, name, arguments)
      ensures template == null ==> r.Err?
      ensures old(template) == null && klass.templateKlass.Some? ==>
        InstantiateError(klass.templateKlass.value, Settings(), bounds).Some? ==>
        template == null && r == Err(InstantiateError(klass.templateKlass.value, Settings(), bounds).value)
    {
      var t := Template(bounds);
      if t.Err? {
        return Err(t.error);
      }
      r := ForwardStyle(t.value.defaultStyle, name, arguments);
    }
  }
}
