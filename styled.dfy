/**
 * `styled`: the factory that wraps an element type with a class template.
 * Rendering separates `className` and `as` from the props, picks the
 * element type with `as ?? Comp`, compiles the template against the
 * remaining props plus `className`, and merges the incoming class names in
 * front of the computed ones. React's element creation is abstracted as a
 * record of type, props and ref.
 */
module Styled {
  import opened JsString
  import opened JsValue
  import opened ClassJoin
  import opened CompileClasses

  datatype Option<T> = None | Some(value: T)

  /**
   * What `styled` wraps: an intrinsic element named by a tag string, or a
   * component object with its `displayName` and `name` properties.
   */
  datatype ElemType =
    | Tag(tag: string)
    | Component(id: nat, displayName: Value, name: Value)
  {
    /** The element type as a JavaScript value: the tag string, or the component object. */
    function AsValue(): Value {
      match this
      case Tag(n) => Str(n)
      case Component(id, _, _) => Obj(id)
    }
  }

  /** A rendered element: its type, its props and the ref it was given. */
  datatype Element = Element(kind: Value, props: Props, ref: Value)

  /** `{ className, as, ...rest }`: the props other than `className` and `as`. */
  function Rest(props: Props): (r: Props)
    ensures "className" !in r && "as" !in r
    ensures forall k :: k in r <==> k in props && k != "className" && k != "as"
    ensures forall k :: k in r ==> r[k] == props[k]
  {
    props - {"className", "as"}
  }

  /** `{ ...rest, className }`: the props the template functions see. */
  function Context(props: Props): Props
  {
    Rest(props)["className" := Get(props, "className")]
  }

  /** The component `styledTemplate` returns: the wrapped type, the template and a `displayName` property. */
  class StyledComponent {
    const base: ElemType
    const chunks: seq<string>
    const slots: seq<Slot>
    var displayName: Value

    constructor(base: ElemType, chunks: seq<string>, slots: seq<Slot>)
      ensures this.base == base && this.chunks == chunks && this.slots == slots
      ensures displayName == Undefined
    {
      this.base := base;
      this.chunks := chunks;
      this.slots := slots;
      displayName := Undefined;
    }

    /** The classes the template computes for `props`. */
    function Computed(props: Props): string
    {
      Compiled(chunks, slots, Context(props))
    }

    /** The render function passed to `forwardRef`. */
    function Render(props: Props, ref: Value): (e: Element)
      ensures e.ref == ref
      ensures "as" !in e.props && "className" in e.props
    {
      var finalComp := if IsNullish(Get(props, "as")) then base.AsValue() else Get(props, "as");
      var className := Cx([Get(props, "className"), Str(Computed(props))]);
      Element(finalComp, Rest(props)["className" := Str(className)], ref)
    }
  }

  /** The string a non-tag component contributes to the display name: `displayName || name || "Component"`. */
  function BaseNameValue(c: ElemType): Value
    requires c.Component?
  {
    if Truthy(c.displayName) then c.displayName
    else if Truthy(c.name) then c.name
    else Str("Component")
  }

  /** `baseName`: the tag string itself, or the component's name, stringified by the template literal. */
  function BaseName(c: ElemType): string
  {
    if c.Tag? then c.tag else ToString(BaseNameValue(c))
  }

  /** `` `styled(${baseName})` ``. */
  function DisplayName(c: ElemType): string
  {
    "styled(" + BaseName(c) + ")"
  }

  /** `styledFactory(Comp)`: the template tag bound to `Comp`. */
  datatype Factory = Factory(base: ElemType)

  /** `styledTemplate(strings, ...exprs)`: builds the component and sets its `displayName`. */
  method StyledTemplate(f: Factory, chunks: seq<string>, slots: seq<Slot>) returns (s: StyledComponent)
    ensures fresh(s)
    ensures s.base == f.base && s.chunks == chunks && s.slots == slots
    ensures s.displayName == Str(DisplayName(f.base))
  {
    s := new StyledComponent(f.base, chunks, slots);
    s.displayName := Str("styled(" + BaseName(f.base) + ")");
  }

  /** A property key of the `styled` proxy. */
  datatype Key = StrKey(name: string) | SymKey(id: nat)

  /** The proxy's `get` trap: `styled.div` and friends. */
  function ProxyGet(key: Key): (r: Option<Factory>)
    ensures key.StrKey? <==> r.Some?
    ensures key.StrKey? ==> r.value.base == Tag(key.name)
  {
    match key
    case StrKey(n) => Some(Factory(Tag(n)))
    case SymKey(_) => None
  }

  /** The proxy's `apply` trap: `styled(Comp)`, which reads only the first argument. */
  function ProxyApply(args: seq<ElemType>): (r: Option<Factory>)
    ensures args != [] <==> r.Some?
    ensures args != [] ==> r.value.base == args[0]
  {
    if args == [] then None else Some(Factory(args[0]))
  }

  // ---------------------------------------------------------------------
  // The render rule

  /**
   * The element type is `as` unless `as` is null or undefined, and the wrapped
   * type otherwise. It depends on nothing else: two components wrapping the
   * same type give the same element type for props that agree on `as` (or
   * both lack one), whatever their templates, other props and refs.
   */
  lemma RenderType(s: StyledComponent, t: StyledComponent, p: Props, q: Props, r1: Value, r2: Value)
    requires s.base == t.base
    ensures !IsNullish(Get(p, "as")) ==> s.Render(p, r1).kind == Get(p, "as")
    ensures IsNullish(Get(p, "as")) ==> s.Render(p, r1).kind == s.base.AsValue()
    ensures Get(p, "as") == Get(q, "as") ==> s.Render(p, r1).kind == t.Render(q, r2).kind
    ensures IsNullish(Get(p, "as")) && IsNullish(Get(q, "as")) ==> s.Render(p, r1).kind == t.Render(q, r2).kind
  {
  }

  /** Every prop other than `className` and `as` reaches the element unchanged; `as` never does. */
  lemma RenderForwardsRest(s: StyledComponent, props: Props, ref: Value)
    ensures forall k :: k != "className" && k != "as" ==>
      (k in s.Render(props, ref).props <==> k in props)
    ensures forall k :: k != "className" && k != "as" && k in props ==>
      s.Render(props, ref).props[k] == props[k]
    ensures "as" !in s.Render(props, ref).props
  {
  }

  /** The element's `className` is `cx(className, computed)`. */
  lemma RenderClassName(s: StyledComponent, props: Props, ref: Value)
    ensures s.Render(props, ref).props["className"]
         == Str(Cx([Get(props, "className"), Str(s.Computed(props))]))
  {
  }

  /** The template sees the caller's `className` and every other prop except `as`. */
  lemma ContextContents(props: Props)
    ensures "as" !in Context(props)
    ensures Get(Context(props), "className") == Get(props, "className")
    ensures forall k :: k != "className" && k != "as" ==> Get(Context(props), k) == Get(props, k)
  {
  }

  /** Changing only `as` changes only the element type: the template never sees it. */
  lemma AsOnlyChangesType(s: StyledComponent, props: Props, v: Value, ref: Value)
    ensures Context(props["as" := v]) == Context(props)
    ensures s.Render(props["as" := v], ref).props == s.Render(props, ref).props
  {
    var q := props["as" := v];
    assert Rest(q) == Rest(props);
    assert Get(q, "className") == Get(props, "className");
    assert Context(q) == Context(props);
    assert s.Computed(q) == s.Computed(props);
  }

  /** The classes of the element are the incoming ones followed by the computed ones. */
  lemma RenderMerge(s: StyledComponent, props: Props, ref: Value, incoming: string)
    requires Get(props, "className") == Str(incoming)
    ensures Tokens(s.Render(props, ref).props["className"].s) == Tokens(incoming) + Tokens(s.Computed(props))
  {
    RenderClassName(s, props, ref);
    CxPairTokens(incoming, s.Computed(props));
  }

  /** With no incoming `className`, the element carries exactly the computed classes. */
  lemma RenderNoIncoming(s: StyledComponent, props: Props, ref: Value)
    requires IsNullish(Get(props, "className"))
    ensures s.Render(props, ref).props["className"] == Str(s.Computed(props))
  {
    CompiledSpec(s.chunks, s.slots, Context(props));
    CxNullishThenNormal(Get(props, "className"), s.Computed(props));
  }

  // ---------------------------------------------------------------------
  // Naming and dispatch

  /** A tag is named by itself; a component by its first truthy name property, else `"Component"`. */
  lemma BaseNameCases(c: ElemType)
    ensures c.Tag? ==> BaseName(c) == c.tag
    ensures c.Component? && c.displayName.Str? && c.displayName.s != "" ==> BaseName(c) == c.displayName.s
    ensures c.Component? && !Truthy(c.displayName) && c.name.Str? && c.name.s != "" ==> BaseName(c) == c.name.s
    ensures c.Component? && !Truthy(c.displayName) && !Truthy(c.name) ==> BaseName(c) == "Component"
  {
  }

  /** `styled.tag` and `styled("tag")` build the same factory. */
  lemma ProxyFormsAgree(n: string)
    ensures ProxyGet(StrKey(n)) == ProxyApply([Tag(n)])
  {
  }

  /** Arguments after the first are ignored by `styled(...)`. */
  lemma ProxyApplyFirstOnly(c: ElemType, more: seq<ElemType>)
    ensures ProxyApply([c] + more) == ProxyApply([c])
  {
  }

  // ---------------------------------------------------------------------
  // Concrete cases

  /** A one-token template without an incoming `className` renders exactly that token. */
  lemma RenderSingleToken(s: StyledComponent, props: Props, ref: Value, t: string)
    requires s.chunks == [t] && s.slots == [] && IsToken(t)
    requires IsNullish(Get(props, "className"))
    ensures s.Render(props, ref).props["className"] == Str(t)
  {
    CompiledSingleToken(t, Context(props));
    RenderNoIncoming(s, props, ref);
  }

  /** A one-token template with an incoming one-token `className` renders both, incoming first. */
  lemma RenderMergedToken(s: StyledComponent, props: Props, ref: Value, a: string, t: string)
    requires s.chunks == [t] && s.slots == [] && IsToken(t)
    requires Get(props, "className") == Str(a) && IsToken(a)
    ensures s.Render(props, ref).props["className"] == Str(a + " " + t)
  {
    CompiledSingleToken(t, Context(props));
    RenderClassName(s, props, ref);
    CxTwoTokens(a, t);
  }

  /** A template spelling class tokens with single spaces renders exactly that spelling when no `className` comes in. */
  lemma RenderOfJoin(s: StyledComponent, props: Props, ref: Value, ts: seq<string>)
    requires AllTokens(ts) && IsNullish(Get(props, "className"))
    requires Template(s.chunks, s.slots, Context(props)) == Join(ts, " ")
    ensures s.Render(props, ref).props["className"] == Str(Join(ts, " "))
  {
    CompiledOfJoin(s.chunks, s.slots, Context(props), ts);
    RenderNoIncoming(s, props, ref);
  }

  /** A one-chunk template that spells class tokens with single spaces renders that chunk. */
  lemma RenderOneChunk(s: StyledComponent, props: Props, ref: Value, ts: seq<string>)
    requires s.chunks == [Join(ts, " ")] && s.slots == []
    requires AllTokens(ts) && IsNullish(Get(props, "className"))
    ensures s.Render(props, ref).props["className"] == Str(Join(ts, " "))
  {
    OneChunkTemplate(Join(ts, " "), Context(props));
    RenderOfJoin(s, props, ref, ts);
  }

  lemma ExampleTokens()
    ensures IsToken("bg-blue") && IsToken("mt-2") && IsToken("underline")
    ensures IsToken("bg-green-500") && IsToken("mt-3")
    ensures "mt-2" + " " + "bg-blue" == "mt-2 bg-blue"
    ensures "mt-3" + " " + "bg-green-500" == "mt-3 bg-green-500"
  {
    PlainIsToken("bg-blue");
    PlainIsToken("mt-2");
    PlainIsToken("underline");
    PlainIsToken("bg-green-500");
    PlainIsToken("mt-3");
  }

  /** `styled.div\`bg-blue\`` rendered with `children: "hello"`. */
  lemma MyDivRender(s: StyledComponent, ref: Value)
    requires s.base == Tag("div") && s.chunks == ["bg-blue"] && s.slots == []
    ensures s.Render(map["children" := Str("hello")], ref).kind == Str("div")
    ensures s.Render(map["children" := Str("hello")], ref).props["children"] == Str("hello")
    ensures s.Render(map["children" := Str("hello")], ref).props["className"] == Str("bg-blue")
  {
    ExampleTokens();
    RenderSingleToken(s, map["children" := Str("hello")], ref, "bg-blue");
  }

  /** The same component with `className: "mt-2"` carries both classes, incoming first. */
  lemma MyDivMerged(s: StyledComponent, ref: Value)
    requires s.base == Tag("div") && s.chunks == ["bg-blue"] && s.slots == []
    ensures s.Render(map["className" := Str("mt-2"), "children" := Str("x")], ref).props["className"]
         == Str("mt-2 bg-blue")
  {
    var p := map["className" := Str("mt-2"), "children" := Str("x")];
    assert Get(p, "className") == Str("mt-2");
    ExampleTokens();
    RenderMergedToken(s, p, ref, "mt-2", "bg-blue");
  }

  /** `styled.div\`underline\`` rendered with `as: "a"` renders an anchor and keeps `href`. */
  lemma PolyRender(s: StyledComponent, ref: Value)
    requires s.base == Tag("div") && s.chunks == ["underline"] && s.slots == []
    ensures s.Render(map["as" := Str("a"), "href" := Str("#"), "children" := Str("link")], ref).kind == Str("a")
    ensures s.Render(map["as" := Str("a"), "href" := Str("#"), "children" := Str("link")], ref).props["href"] == Str("#")
    ensures s.Render(map["as" := Str("a"), "href" := Str("#"), "children" := Str("link")], ref).props["className"] == Str("underline")
    ensures s.Render(map["as" := Str("a"), "href" := Str("#"), "children" := Str("link")], ref).props["children"] == Str("link")
    ensures "as" !in s.Render(map["as" := Str("a"), "href" := Str("#"), "children" := Str("link")], ref).props
  {
    var p := map["as" := Str("a"), "href" := Str("#"), "children" := Str("link")];
    assert Get(p, "as") == Str("a");
    assert Get(p, "className") == Undefined;
    ExampleTokens();
    RenderSingleToken(s, p, ref, "underline");
  }

  /** `styled(Textarea)\`bg-green-500\`` with `className: "mt-3"` carries both classes. */
  lemma TextareaRender(s: StyledComponent, textarea: ElemType, ref: Value)
    requires textarea.Component? && s.base == textarea && s.chunks == ["bg-green-500"] && s.slots == []
    ensures s.Render(map["className" := Str("mt-3"), "children" := Str("x")], ref).kind == textarea.AsValue()
    ensures s.Render(map["className" := Str("mt-3"), "children" := Str("x")], ref).props["className"]
         == Str("mt-3 bg-green-500")
  {
    var p := map["className" := Str("mt-3"), "children" := Str("x")];
    assert Get(p, "className") == Str("mt-3");
    ExampleTokens();
    RenderMergedToken(s, p, ref, "mt-3", "bg-green-500");
  }

  /** The slot of `styled.div\`p-4 ${…}\``: two class lists chosen by the `primary` prop. */
  function BoxSlot(): Slot
  {
    Fn((p: Props) => if Truthy(Get(p, "primary")) then Str("bg-blue-600 text-white") else Str("bg-gray-100"))
  }

  lemma BoxTokens()
    ensures AllTokens(["p-4", "bg-blue-600", "text-white"]) && AllTokens(["p-4", "bg-gray-100"])
  {
    PlainIsToken("p-4");
    PlainIsToken("bg-blue-600");
    PlainIsToken("text-white");
    PlainIsToken("bg-gray-100");
  }

  lemma BoxBlueSpelling()
    ensures "p-4 " + "bg-blue-600 text-white" + "" == "p-4 bg-blue-600 text-white"
    ensures Join(["p-4", "bg-blue-600", "text-white"], " ") == "p-4 bg-blue-600 text-white"
  {
  }

  lemma BoxGreySpelling()
    ensures "p-4 " + "bg-gray-100" + "" == "p-4 bg-gray-100"
    ensures Join(["p-4", "bg-gray-100"], " ") == "p-4 bg-gray-100"
  {
  }

  lemma BoxSlotText(props: Props)
    ensures SlotText(BoxSlot(), props)
         == if Truthy(Get(props, "primary")) then "bg-blue-600 text-white" else "bg-gray-100"
  {
  }

  /** For any props without an incoming `className`, the prop-dependent template follows `primary`. */
  lemma BoxRender(s: StyledComponent, props: Props, ref: Value)
    requires s.chunks == ["p-4 ", ""] && s.slots == [BoxSlot()]
    requires IsNullish(Get(props, "className"))
    ensures s.Render(props, ref).props["className"]
         == Str(if Truthy(Get(props, "primary")) then "p-4 bg-blue-600 text-white" else "p-4 bg-gray-100")
  {
    ContextContents(props);
    BoxSlotText(Context(props));
    TwoChunkTemplate("p-4 ", "", BoxSlot(), Context(props));
    BoxTokens();
    BoxBlueSpelling();
    BoxGreySpelling();
    if Truthy(Get(props, "primary")) {
      RenderOfJoin(s, props, ref, ["p-4", "bg-blue-600", "text-white"]);
    } else {
      RenderOfJoin(s, props, ref, ["p-4", "bg-gray-100"]);
    }
  }

  /** `primary: true` adds the blue classes after `p-4`; leaving it out adds the grey one. */
  lemma BoxCases(s: StyledComponent, ref: Value)
    requires s.base == Tag("div") && s.chunks == ["p-4 ", ""] && s.slots == [BoxSlot()]
    ensures s.Render(map["primary" := Bool(true), "children" := Str("y")], ref).props["className"]
         == Str("p-4 bg-blue-600 text-white")
    ensures s.Render(map["children" := Str("n")], ref).props["className"] == Str("p-4 bg-gray-100")
  {
    var p := map["primary" := Bool(true), "children" := Str("y")];
    assert Get(p, "className") == Undefined && Get(p, "primary") == Bool(true);
    BoxRender(s, p, ref);
    var q := map["children" := Str("n")];
    assert Get(q, "className") == Undefined && Get(q, "primary") == Undefined;
    BoxRender(s, q, ref);
  }

  lemma FancySpelling()
    ensures Join(["border", "p-2", "shadow"], " ") == "border p-2 shadow"
  {
  }

  lemma FancyTokens()
    ensures AllTokens(["border", "p-2", "shadow"])
  {
    PlainIsToken("border");
    PlainIsToken("p-2");
    PlainIsToken("shadow");
  }

  /** `styled(Fancy)\`border p-2 shadow\``: the element type is the component itself, with the template's classes. */
  lemma FancyRender(s: StyledComponent, fancy: ElemType, ref: Value)
    requires fancy.Component? && s.base == fancy && s.chunks == ["border p-2 shadow"] && s.slots == []
    ensures s.Render(map["title" := Str("A"), "children" := Str("B")], ref).kind == fancy.AsValue()
    ensures s.Render(map["title" := Str("A"), "children" := Str("B")], ref).props["title"] == Str("A")
    ensures s.Render(map["title" := Str("A"), "children" := Str("B")], ref).props["className"]
         == Str("border p-2 shadow")
  {
    var p := map["title" := Str("A"), "children" := Str("B")];
    assert Get(p, "className") == Undefined;
    FancyTokens();
    FancySpelling();
    RenderOneChunk(s, p, ref, ["border", "p-2", "shadow"]);
  }

  /** A component whose `displayName` is `"Textarea"` is shown as `styled(Textarea)`. */
  lemma TextareaDisplayName(id: nat, name: Value)
    ensures DisplayName(Component(id, Str("Textarea"), name)) == "styled(Textarea)"
  {
  }

  /** An empty or absent `displayName` falls back to `name`, and an empty or absent `name` to `"Component"`. */
  lemma FancyDisplayName(id: nat)
    ensures DisplayName(Component(id, Str(""), Str("Fancy"))) == "styled(Fancy)"
    ensures DisplayName(Component(id, Undefined, Str(""))) == "styled(Component)"
    ensures DisplayName(Component(id, Str(""), Str(""))) == "styled(Component)"
    ensures DisplayName(Component(id, Undefined, Undefined)) == "styled(Component)"
  {
  }
}
