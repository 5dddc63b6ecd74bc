/** What the renderers of asphyxiate/__init__.py produce, as functions of the
    input element.  Every `render*` generator of the source becomes a function
    whose `Ok` value is the list of items it yields and whose `Err` value is the
    exception that ends the rendering.  The imperative versions in module
    Renderer are proved to compute exactly these functions.

    `fuel` bounds how many referenced documents may be loaded one inside the
    other; the source has no such bound and recurses until Python stops it. */
module Transform {
  import opened Xml
  import opened Docs
  import PyText

  /** What a rendering call can see: the directive's line number (used for
      reporter warnings) and the parsed documents `<refid>.xml`, keyed by refid. */
  datatype Context = Context(lineno: int, documents: map<string, Element>)

  /** The tag-level renderers, `render_<tag>`. */
  datatype TagCase = MemberdefCase | SectiondefCase | CompounddefCase | CompoundCase | InnerclassCase

  /** The kind-level renderers, `_render_<tag>_<kind>`. */
  datatype KindCase =
    | MemberFunction | MemberDefine | MemberTypedef | MemberVariable
    | CompoundFile | CompoundStruct

  /** The module-level names `render_<tag>` that exist. */
  function TagRenderer(tag: string): (r: Option<TagCase>)
    ensures r.Some? <==> tag in {"memberdef", "sectiondef", "compounddef", "compound", "innerclass"}
  {
    if tag == "memberdef" then Some(MemberdefCase)
    else if tag == "sectiondef" then Some(SectiondefCase)
    else if tag == "compounddef" then Some(CompounddefCase)
    else if tag == "compound" then Some(CompoundCase)
    else if tag == "innerclass" then Some(InnerclassCase)
    else None
  }

  /** The module-level names `_render_<tag>_<kind>` that exist. */
  function KindRenderer(tag: string, kind: string): (r: Option<KindCase>)
    ensures r.Some? <==>
      (tag == "memberdef" && kind in {"function", "define", "typedef", "variable"}) ||
      (tag == "compounddef" && kind in {"file", "struct"})
  {
    if tag == "memberdef" then
      if kind == "function" then Some(MemberFunction)
      else if kind == "define" then Some(MemberDefine)
      else if kind == "typedef" then Some(MemberTypedef)
      else if kind == "variable" then Some(MemberVariable)
      else None
    else if tag == "compounddef" then
      if kind == "file" then Some(CompoundFile)
      else if kind == "struct" then Some(CompoundStruct)
      else None
    else None
  }

  /** The `TITLES` table of render_sectiondef. */
  function SectionTitle(kind: string): Option<string>
  {
    if kind == "func" then Some("Functions")
    else if kind == "define" then Some("Defines")
    else if kind == "typedef" then Some("Types")
    else if kind == "public-attrib" then Some("Members")
    else None
  }

  /** Children a file compound does not render. */
  const FileSkip: set<string> :=
    {"compoundname", "briefdescription", "detaileddescription", "location", "listofallmembers"}

  /** Children a struct compound does not render: the file list plus `includes`. */
  const StructSkip: set<string> := FileSkip + {"includes"}

  /** The failure of every "cannot handle" assert: its message reads
      `node.attrib['kind']`, which raises KeyError first when there is no kind. */
  function CannotHandleError(e: Element): Error
  {
    match Attr(e, "kind")
    case Some(k) => CannotHandle(e.tag, k)
    case None => MissingAttribute("kind")
  }

  predicate IsPublic(e: Element)
  {
    Attr(e, "prot") == Some("public")
  }

  /** `node.xpath("./<tag>/text()")[0]`. */
  function Text(e: Element, tag: string): Result<string>
  {
    match FirstText(e, tag)
    case Some(t) => Ok(t)
    case None => Err(MissingText(tag))
  }

  /** Every brief-description paragraph text, then every detailed-description one. */
  function DescriptionTexts(e: Element): seq<string>
  {
    ParaTexts(e, "briefdescription") + ParaTexts(e, "detaileddescription")
  }

  /** Each text followed by an empty line. */
  function Paired(ts: seq<string>): seq<string>
  {
    if ts == [] then [] else Paired(ts[..|ts| - 1]) + [ts[|ts| - 1], ""]
  }

  /** The content lines handed to a C-domain directive. */
  function ContentLines(e: Element): seq<string>
  {
    Paired(DescriptionTexts(e))
  }

  /** The message of the soft failure for a tag without renderer. */
  function NoRendererMessage(tag: string): string
  {
    "asphyxiate: No renderer found for doxygen tag " + PyText.PyRepr(tag)
  }

  /** A warning box holding the message, then the reporter's warning at the
      directive's line. */
  function UnknownTag(ctx: Context, tag: string): seq<Node>
  {
    var msg := NoRendererMessage(tag);
    [Warning(msg), ReporterWarning(msg, ctx.lineno)]
  }

  // ---- the memberdef renderers ----

  function MemberdefFunction(e: Element): Result<seq<Node>>
  {
    if !IsPublic(e) then Err(CannotHandleError(e))
    else
      var t :- Text(e, "type");
      var n :- Text(e, "name");
      var a :- Text(e, "argsstring");
      Ok([Directive("function", t + " " + n + a, ContentLines(e))])
  }

  function MemberdefDefine(e: Element): Result<seq<Node>>
  {
    if !IsPublic(e) then Err(CannotHandleError(e))
    else
      var n :- Text(e, "name");
      Ok([Directive("macro", n, ContentLines(e))])
  }

  function MemberdefTypedef(e: Element): Result<seq<Node>>
  {
    if !IsPublic(e) then Err(CannotHandleError(e))
    else
      var n :- Text(e, "name");
      Ok([Directive("type", n, ContentLines(e))])
  }

  function MemberdefVariable(e: Element): Result<seq<Node>>
  {
    if !IsPublic(e) then Err(CannotHandleError(e))
    else
      var t :- Text(e, "type");
      var n :- Text(e, "name");
      Ok([Directive("member", t + " " + n, ContentLines(e))])
  }

  // ---- the recursive renderers ----

  /** `render`: dispatch on the tag; a tag without renderer is a soft failure. */
  function Render(ctx: Context, fuel: nat, e: Element): Result<seq<Node>>
    decreases fuel, Size(e), 2
  {
    match TagRenderer(e.tag)
    case None => Ok(UnknownTag(ctx, e.tag))
    case Some(MemberdefCase) => RenderByKind(ctx, fuel, e)
    case Some(CompounddefCase) => RenderByKind(ctx, fuel, e)
    case Some(SectiondefCase) => RenderSectiondef(ctx, fuel, e)
    case Some(CompoundCase) => RenderCompound(ctx, fuel, e)
    case Some(InnerclassCase) => RenderDocument(ctx, fuel, e)
  }

  /** The items of every element of `cs`, rendered in order. */
  function RenderSeq(ctx: Context, fuel: nat, cs: seq<Element>): Result<seq<Node>>
    decreases fuel, SeqSize(cs), 3
  {
    if cs == [] then Ok([])
    else Then(Render(ctx, fuel, cs[0]), RenderSeq(ctx, fuel, cs[1..]))
  }

  /** `render_memberdef` and `render_compounddef` (the same code): dispatch on
      (tag, kind); a pair without renderer is a hard failure. */
  function RenderByKind(ctx: Context, fuel: nat, e: Element): Result<seq<Node>>
    decreases fuel, Size(e), 1
  {
    match Attr(e, "kind")
    case None => Err(MissingAttribute("kind"))
    case Some(kind) =>
      match KindRenderer(e.tag, kind)
      case None => Err(CannotHandle(e.tag, kind))
      case Some(MemberFunction) => MemberdefFunction(e)
      case Some(MemberDefine) => MemberdefDefine(e)
      case Some(MemberTypedef) => MemberdefTypedef(e)
      case Some(MemberVariable) => MemberdefVariable(e)
      case Some(CompoundFile) => CompounddefFile(ctx, fuel, e)
      case Some(CompoundStruct) => CompounddefStruct(ctx, fuel, e)
  }

  function RenderSectiondef(ctx: Context, fuel: nat, e: Element): Result<seq<Node>>
    decreases fuel, Size(e), 1
  {
    match Attr(e, "kind")
    case None => Err(MissingAttribute("kind"))
    case Some(kind) =>
      match SectionTitle(kind)
      case None => Err(CannotHandle(e.tag, kind))
      case Some(title) =>
        ExcludeSmaller(e.children, {"location"});
        var items :- RenderSeq(ctx, fuel, Exclude(e.children, {"location"}));
        Ok([Section(kind, [Title(title)] + items)])
  }

  function CompounddefFile(ctx: Context, fuel: nat, e: Element): Result<seq<Node>>
    decreases fuel, Size(e), 0
  {
    ExcludeSmaller(e.children, FileSkip);
    RenderSeq(ctx, fuel, Exclude(e.children, FileSkip))
  }

  function CompounddefStruct(ctx: Context, fuel: nat, e: Element): Result<seq<Node>>
    decreases fuel, Size(e), 0
  {
    var name :- Text(e, "compoundname");
    var title := "Struct " + name;
    ExcludeSmaller(e.children, StructSkip);
    var items :- RenderSeq(ctx, fuel, Exclude(e.children, StructSkip));
    Ok([Section(title, [Title(title), Directive("type", "struct " + name, ContentLines(e))] + items)])
  }

  /** `render_compound`: only file compounds are accepted. */
  function RenderCompound(ctx: Context, fuel: nat, e: Element): Result<seq<Node>>
    decreases fuel, Size(e), 1
  {
    if Attr(e, "kind") != Some("file") then Err(CannotHandleError(e))
    else RenderDocument(ctx, fuel, e)
  }

  /** Load the document named by the element's refid and render every child
      of its root (`render_compound` after its check, and `render_innerclass`). */
  function RenderDocument(ctx: Context, fuel: nat, e: Element): Result<seq<Node>>
    decreases fuel, Size(e), 0
  {
    match Attr(e, "refid")
    case None => Err(MissingAttribute("refid"))
    case Some(refid) =>
      if refid !in ctx.documents then Err(MissingDocument(refid))
      else if fuel == 0 then Err(RecursionLimit)
      else RenderSeq(ctx, fuel - 1, ctx.documents[refid].children)
  }
}
