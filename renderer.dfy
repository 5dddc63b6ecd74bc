/** The renderers as the source runs them: generators that yield item by item,
    content lists and sections built by appending in loops.  Each method is
    proved to compute its function in module Transform: `Render<X>` computes
    `<X>` (or `Render<X>` there), `RenderAll` computes `RenderSeq`,
    `BuildContents` computes `ContentLines` and `AppendPaired` computes `Paired`. */
module Renderer {
  import opened Xml
  import opened Docs
  import Transform
  import opened TransformLemmas

  /** A docutils section under construction; `sec.append(item)` adds a child. */
  class SectionNode {
    const ids: string
    var children: seq<Node>

    constructor (ids: string)
      ensures this.ids == ids && children == []
    {
      this.ids := ids;
      children := [];
    }

    method Append(n: Node)
      modifies this
      ensures children == old(children) + [n]
    {
      children := children + [n];
    }

    /** `for item in ...: sec.append(item)`. */
    method AppendAll(items: seq<Node>)
      modifies this
      ensures children == old(children) + items
    {
      for j := 0 to |items|
        invariant children == old(children) + items[..j]
      {
        Append(items[j]);
        assert items[..j + 1] == items[..j] + [items[j]];
      }
      assert items[..|items|] == items;
    }

    /** The finished section node. */
    function Value(): (n: Node)
      reads this
      ensures n.Section? && n.ids == ids && n.children == children
    {
      Section(ids, children)
    }
  }

  /** `for s in texts: contents.append(s); contents.append('')`. */
  method AppendPaired(init: seq<string>, texts: seq<string>) returns (contents: seq<string>)
    ensures contents == init + Transform.Paired(texts)
  {
    contents := init;
    for i := 0 to |texts|
      invariant contents == init + Transform.Paired(texts[..i])
    {
      PairedSnoc(texts, i);
      ghost var before := contents;
      contents := contents + [texts[i]];
      contents := contents + [""];
      assert contents == before + [texts[i], ""];
    }
    assert texts[..|texts|] == texts;
  }

  /** The content list every renderer builds: each brief-description text and
      then each detailed-description text, each followed by an empty line. */
  method BuildContents(e: Element) returns (contents: seq<string>)
    ensures contents == Transform.ContentLines(e)
  {
    var brief := ParaTexts(e, "briefdescription");
    var detailed := ParaTexts(e, "detaileddescription");
    contents := AppendPaired([], brief);
    contents := AppendPaired(contents, detailed);
    PairedAppend(brief, detailed);
  }

  // ---- the memberdef renderers ----

  method RenderMemberdefFunction(e: Element) returns (r: Result<seq<Node>>)
    ensures r == Transform.MemberdefFunction(e)
  {
    if !Transform.IsPublic(e) {
      return Err(Transform.CannotHandleError(e));
    }
    var t :- Transform.Text(e, "type");
    var n :- Transform.Text(e, "name");
    var a :- Transform.Text(e, "argsstring");
    var contents := BuildContents(e);
    r := Ok([Directive("function", t + " " + n + a, contents)]);
  }

  method RenderMemberdefDefine(e: Element) returns (r: Result<seq<Node>>)
    ensures r == Transform.MemberdefDefine(e)
  {
    if !Transform.IsPublic(e) {
      return Err(Transform.CannotHandleError(e));
    }
    var n :- Transform.Text(e, "name");
    var contents := BuildContents(e);
    r := Ok([Directive("macro", n, contents)]);
  }

  method RenderMemberdefTypedef(e: Element) returns (r: Result<seq<Node>>)
    ensures r == Transform.MemberdefTypedef(e)
  {
    if !Transform.IsPublic(e) {
      return Err(Transform.CannotHandleError(e));
    }
    var n :- Transform.Text(e, "name");
    var contents := BuildContents(e);
    r := Ok([Directive("type", n, contents)]);
  }

  method RenderMemberdefVariable(e: Element) returns (r: Result<seq<Node>>)
    ensures r == Transform.MemberdefVariable(e)
  {
    if !Transform.IsPublic(e) {
      return Err(Transform.CannotHandleError(e));
    }
    var t :- Transform.Text(e, "type");
    var n :- Transform.Text(e, "name");
    var contents := BuildContents(e);
    r := Ok([Directive("member", t + " " + n, contents)]);
  }

  // ---- the recursive renderers ----

  /** `render`. */
  method Render(ctx: Transform.Context, fuel: nat, e: Element) returns (r: Result<seq<Node>>)
    ensures r == Transform.Render(ctx, fuel, e)
    decreases fuel, Size(e), 2
  {
    match Transform.TagRenderer(e.tag)
    case None =>
      var warning := Transform.NoRendererMessage(e.tag);
      r := Ok([Warning(warning), ReporterWarning(warning, ctx.lineno)]);
    case Some(MemberdefCase) =>
      r := RenderByKind(ctx, fuel, e);
    case Some(CompounddefCase) =>
      r := RenderByKind(ctx, fuel, e);
    case Some(SectiondefCase) =>
      r := RenderSectiondef(ctx, fuel, e);
    case Some(CompoundCase) =>
      r := RenderCompound(ctx, fuel, e);
    case Some(InnerclassCase) =>
      r := RenderDocument(ctx, fuel, e);
  }

  /** `render_memberdef` and `render_compounddef`. */
  method RenderByKind(ctx: Transform.Context, fuel: nat, e: Element) returns (r: Result<seq<Node>>)
    ensures r == Transform.RenderByKind(ctx, fuel, e)
    decreases fuel, Size(e), 1
  {
    var kind := Attr(e, "kind");
    if kind.None? {
      return Err(MissingAttribute("kind"));
    }
    match Transform.KindRenderer(e.tag, kind.value)
    case None =>
      r := Err(CannotHandle(e.tag, kind.value));
    case Some(MemberFunction) =>
      r := RenderMemberdefFunction(e);
    case Some(MemberDefine) =>
      r := RenderMemberdefDefine(e);
    case Some(MemberTypedef) =>
      r := RenderMemberdefTypedef(e);
    case Some(MemberVariable) =>
      r := RenderMemberdefVariable(e);
    case Some(CompoundFile) =>
      r := RenderCompounddefFile(ctx, fuel, e);
    case Some(CompoundStruct) =>
      r := RenderCompounddefStruct(ctx, fuel, e);
  }

  /** `for child in children: if child.tag not in skip: for item in
      render(child): sec.append(item)`.  On success the section has gained the
      items of every child not skipped; on failure the error is the one the
      whole rendering ends with. */
  method AppendRendered(ctx: Transform.Context, fuel: nat, cs: seq<Element>, skip: set<string>, sec: SectionNode)
    returns (failure: Option<Error>)
    modifies sec
    ensures failure.None? <==> Transform.RenderSeq(ctx, fuel, Exclude(cs, skip)).Ok?
    ensures failure.Some? ==> Transform.RenderSeq(ctx, fuel, Exclude(cs, skip)) == Err(failure.value)
    ensures failure.None? ==>
      sec.children == old(sec.children) + Transform.RenderSeq(ctx, fuel, Exclude(cs, skip)).value
    decreases fuel, SeqSize(cs), 0
  {
    ghost var start := sec.children;
    ghost var acc: seq<Node> := [];
    assert cs[..0] == [] && Exclude([], skip) == [];
    for i := 0 to |cs|
      invariant sec.children == start + acc
      invariant Transform.RenderSeq(ctx, fuel, Exclude(cs[..i], skip)) == Ok(acc)
    {
      if cs[i].tag in skip {
        SkippedChildStep(ctx, fuel, cs, i, skip);
        continue;
      }
      ChildSmaller(cs, i);
      var items := Render(ctx, fuel, cs[i]);
      if items.Err? {
        KeptChildFails(ctx, fuel, cs, i, skip, acc);
        return Some(items.error);
      }
      KeptChildStep(ctx, fuel, cs, i, skip, acc, items.value);
      ConcatAssociative(start, acc, items.value);
      sec.AppendAll(items.value);
      acc := acc + items.value;
    }
    assert cs[..|cs|] == cs;
    return None;
  }

  method RenderSectiondef(ctx: Transform.Context, fuel: nat, e: Element) returns (r: Result<seq<Node>>)
    ensures r == Transform.RenderSectiondef(ctx, fuel, e)
    decreases fuel, Size(e), 1
  {
    var kind := Attr(e, "kind");
    if kind.None? {
      return Err(MissingAttribute("kind"));
    }
    var title := Transform.SectionTitle(kind.value);
    if title.None? {
      return Err(CannotHandle(e.tag, kind.value));
    }
    var sec := new SectionNode(kind.value);
    sec.Append(Title(title.value));
    assert sec.children == [Title(title.value)];
    var failure := AppendRendered(ctx, fuel, e.children, {"location"}, sec);
    if failure.Some? {
      return Err(failure.value);
    }
    r := Ok([sec.Value()]);
  }

  method RenderCompounddefFile(ctx: Transform.Context, fuel: nat, e: Element) returns (r: Result<seq<Node>>)
    ensures r == Transform.CompounddefFile(ctx, fuel, e)
    decreases fuel, Size(e), 0
  {
    var out: seq<Node> := [];
    var cs := e.children;
    assert cs[..0] == [] && Exclude([], Transform.FileSkip) == [];
    for i := 0 to |cs|
      invariant Transform.RenderSeq(ctx, fuel, Exclude(cs[..i], Transform.FileSkip)) == Ok(out)
    {
      if cs[i].tag in Transform.FileSkip {
        SkippedChildStep(ctx, fuel, cs, i, Transform.FileSkip);
        continue;
      }
      ChildSmaller(cs, i);
      var items := Render(ctx, fuel, cs[i]);
      if items.Err? {
        KeptChildFails(ctx, fuel, cs, i, Transform.FileSkip, out);
        return items;
      }
      KeptChildStep(ctx, fuel, cs, i, Transform.FileSkip, out, items.value);
      out := out + items.value;
    }
    assert cs[..|cs|] == cs;
    r := Ok(out);
  }

  method RenderCompounddefStruct(ctx: Transform.Context, fuel: nat, e: Element) returns (r: Result<seq<Node>>)
    ensures r == Transform.CompounddefStruct(ctx, fuel, e)
    decreases fuel, Size(e), 0
  {
    var name :- Transform.Text(e, "compoundname");
    var title := "Struct " + name;
    var sec := new SectionNode(title);
    sec.Append(Title(title));
    var contents := BuildContents(e);
    sec.Append(Directive("type", "struct " + name, contents));
    ghost var header := sec.children;
    assert header == [Title(title), Directive("type", "struct " + name, contents)];
    var failure := AppendRendered(ctx, fuel, e.children, Transform.StructSkip, sec);
    if failure.Some? {
      return Err(failure.value);
    }
    r := Ok([sec.Value()]);
  }

  /** `render_compound`. */
  method RenderCompound(ctx: Transform.Context, fuel: nat, e: Element) returns (r: Result<seq<Node>>)
    ensures r == Transform.RenderCompound(ctx, fuel, e)
    decreases fuel, Size(e), 1
  {
    if Attr(e, "kind") != Some("file") {
      return Err(Transform.CannotHandleError(e));
    }
    r := RenderDocument(ctx, fuel, e);
  }

  /** The shared tail of `render_compound` and `render_innerclass`: load the
      referenced document and yield the items of every child of its root. */
  method RenderDocument(ctx: Transform.Context, fuel: nat, e: Element) returns (r: Result<seq<Node>>)
    ensures r == Transform.RenderDocument(ctx, fuel, e)
    decreases fuel, Size(e), 0
  {
    var refid := Attr(e, "refid");
    if refid.None? {
      return Err(MissingAttribute("refid"));
    }
    if refid.value !in ctx.documents {
      return Err(MissingDocument(refid.value));
    }
    if fuel == 0 {
      return Err(RecursionLimit);
    }
    r := RenderAll(ctx, fuel - 1, ctx.documents[refid.value].children);
  }

  /** `for child in elements: for item in render(child): yield item`. */
  method RenderAll(ctx: Transform.Context, fuel: nat, cs: seq<Element>) returns (r: Result<seq<Node>>)
    ensures r == Transform.RenderSeq(ctx, fuel, cs)
    decreases fuel, SeqSize(cs), 1
  {
    var out: seq<Node> := [];
    for i := 0 to |cs|
      invariant Transform.RenderSeq(ctx, fuel, cs[..i]) == Ok(out)
    {
      ChildSmaller(cs, i);
      var items := Render(ctx, fuel, cs[i]);
      if items.Err? {
        PrefixFails(ctx, fuel, cs, i, out);
        return items;
      }
      PrefixKeptStep(ctx, fuel, cs, i, out, items.value);
      out := out + items.value;
    }
    assert cs[..|cs|] == cs;
    r := Ok(out);
  }
}
