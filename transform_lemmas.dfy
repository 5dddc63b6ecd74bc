/** Properties of the renderers of module Transform. */
module TransformLemmas {
  import opened Xml
  import opened Docs
  import opened Transform
  import PyText

  // ---- rendering a list of children ----

  /** Rendering a concatenation renders each part in turn. */
  lemma {:induction false} RenderSeqAppend(ctx: Context, fuel: nat, a: seq<Element>, b: seq<Element>)
    ensures RenderSeq(ctx, fuel, a + b) == Then(RenderSeq(ctx, fuel, a), RenderSeq(ctx, fuel, b))
  {
    if a == [] {
      assert a + b == b;
      ThenUnit(RenderSeq(ctx, fuel, b));
    } else {
      assert (a + b)[0] == a[0];
      assert (a + b)[1..] == a[1..] + b;
      RenderSeqAppend(ctx, fuel, a[1..], b);
      ThenAssociative(Render(ctx, fuel, a[0]), RenderSeq(ctx, fuel, a[1..]), RenderSeq(ctx, fuel, b));
    }
  }

  lemma RenderSeqSingle(ctx: Context, fuel: nat, c: Element)
    ensures RenderSeq(ctx, fuel, [c]) == Render(ctx, fuel, c)
  {
    assert [c][1..] == [];
    ThenUnit(Render(ctx, fuel, c));
  }

  /** One more element of a loop that renders every element of `cs`. */
  lemma PrefixStep(ctx: Context, fuel: nat, cs: seq<Element>, i: nat)
    requires i < |cs|
    ensures RenderSeq(ctx, fuel, cs[..i + 1]) == Then(RenderSeq(ctx, fuel, cs[..i]), Render(ctx, fuel, cs[i]))
  {
    assert cs[..i + 1] == cs[..i] + [cs[i]];
    RenderSeqAppend(ctx, fuel, cs[..i], [cs[i]]);
    RenderSeqSingle(ctx, fuel, cs[i]);
  }

  /** A failure among the first elements is the failure of the whole loop. */
  lemma PrefixErr(ctx: Context, fuel: nat, cs: seq<Element>, i: nat)
    requires i <= |cs| && RenderSeq(ctx, fuel, cs[..i]).Err?
    ensures RenderSeq(ctx, fuel, cs) == RenderSeq(ctx, fuel, cs[..i])
  {
    assert cs == cs[..i] + cs[i..];
    RenderSeqAppend(ctx, fuel, cs[..i], cs[i..]);
  }

  /** An element that renders adds its items after those of the elements before it. */
  lemma PrefixKeptStep(ctx: Context, fuel: nat, cs: seq<Element>, i: nat, acc: seq<Node>, items: seq<Node>)
    requires i < |cs| && RenderSeq(ctx, fuel, cs[..i]) == Ok(acc)
    requires Render(ctx, fuel, cs[i]) == Ok(items)
    ensures RenderSeq(ctx, fuel, cs[..i + 1]) == Ok(acc + items)
  {
    PrefixStep(ctx, fuel, cs, i);
  }

  /** An element that fails ends the loop with its failure. */
  lemma PrefixFails(ctx: Context, fuel: nat, cs: seq<Element>, i: nat, acc: seq<Node>)
    requires i < |cs| && RenderSeq(ctx, fuel, cs[..i]) == Ok(acc)
    requires Render(ctx, fuel, cs[i]).Err?
    ensures RenderSeq(ctx, fuel, cs) == Render(ctx, fuel, cs[i])
  {
    PrefixStep(ctx, fuel, cs, i);
    PrefixErr(ctx, fuel, cs, i + 1);
  }

  /** One more child of the loop over a parent's children: a skipped child adds
      nothing, a kept one adds its own rendering. */
  lemma ExcludedPrefixStep(ctx: Context, fuel: nat, cs: seq<Element>, i: nat, skip: set<string>)
    requires i < |cs|
    ensures RenderSeq(ctx, fuel, Exclude(cs[..i + 1], skip)) ==
            Then(RenderSeq(ctx, fuel, Exclude(cs[..i], skip)),
                 if cs[i].tag in skip then Ok([]) else Render(ctx, fuel, cs[i]))
  {
    ExcludeSnoc(cs, i, skip);
    var head := Exclude(cs[..i], skip);
    if cs[i].tag in skip {
      assert head + [] == head;
      ThenUnit(RenderSeq(ctx, fuel, head));
    } else {
      RenderSeqAppend(ctx, fuel, head, [cs[i]]);
      RenderSeqSingle(ctx, fuel, cs[i]);
    }
  }

  /** A skipped child leaves the loop's items as they were. */
  lemma SkippedChildStep(ctx: Context, fuel: nat, cs: seq<Element>, i: nat, skip: set<string>)
    requires i < |cs| && cs[i].tag in skip
    ensures RenderSeq(ctx, fuel, Exclude(cs[..i + 1], skip)) == RenderSeq(ctx, fuel, Exclude(cs[..i], skip))
  {
    ExcludedPrefixStep(ctx, fuel, cs, i, skip);
    ThenUnit(RenderSeq(ctx, fuel, Exclude(cs[..i], skip)));
  }

  /** A kept child that renders adds its items after those of the children before it. */
  lemma KeptChildStep(ctx: Context, fuel: nat, cs: seq<Element>, i: nat, skip: set<string>,
                      acc: seq<Node>, items: seq<Node>)
    requires i < |cs| && cs[i].tag !in skip
    requires RenderSeq(ctx, fuel, Exclude(cs[..i], skip)) == Ok(acc)
    requires Render(ctx, fuel, cs[i]) == Ok(items)
    ensures RenderSeq(ctx, fuel, Exclude(cs[..i + 1], skip)) == Ok(acc + items)
  {
    ExcludedPrefixStep(ctx, fuel, cs, i, skip);
  }

  /** A kept child that fails ends the loop with its failure. */
  lemma KeptChildFails(ctx: Context, fuel: nat, cs: seq<Element>, i: nat, skip: set<string>, acc: seq<Node>)
    requires i < |cs| && cs[i].tag !in skip
    requires RenderSeq(ctx, fuel, Exclude(cs[..i], skip)) == Ok(acc)
    requires Render(ctx, fuel, cs[i]).Err?
    ensures RenderSeq(ctx, fuel, Exclude(cs, skip)) == Render(ctx, fuel, cs[i])
  {
    ExcludedPrefixStep(ctx, fuel, cs, i, skip);
    ExcludedPrefixErr(ctx, fuel, cs, i + 1, skip);
  }

  /** A failure among the first children is the failure of the whole loop. */
  lemma ExcludedPrefixErr(ctx: Context, fuel: nat, cs: seq<Element>, i: nat, skip: set<string>)
    requires i <= |cs|
    requires RenderSeq(ctx, fuel, Exclude(cs[..i], skip)).Err?
    ensures RenderSeq(ctx, fuel, Exclude(cs, skip)) == RenderSeq(ctx, fuel, Exclude(cs[..i], skip))
  {
    assert cs == cs[..i] + cs[i..];
    ExcludeAppend(cs[..i], cs[i..], skip);
    RenderSeqAppend(ctx, fuel, Exclude(cs[..i], skip), Exclude(cs[i..], skip));
  }

  // ---- one step of the dispatch at a time ----

  lemma DispatchCompounddef(ctx: Context, fuel: nat, e: Element)
    requires e.tag == "compounddef"
    ensures Render(ctx, fuel, e) == RenderByKind(ctx, fuel, e)
  {
    assert TagRenderer(e.tag) == Some(CompounddefCase);
  }

  /** A file compound of the index goes through render_compound's check and
      is rendered as the document its refid names. */
  lemma DispatchCompound(ctx: Context, fuel: nat, e: Element)
    requires e.tag == "compound" && Attr(e, "kind") == Some("file")
    ensures Render(ctx, fuel, e) == RenderDocument(ctx, fuel, e)
  {
    assert TagRenderer(e.tag) == Some(CompoundCase);
  }

  lemma DispatchStruct(ctx: Context, fuel: nat, e: Element)
    requires e.tag == "compounddef" && Attr(e, "kind") == Some("struct")
    ensures Render(ctx, fuel, e) == CompounddefStruct(ctx, fuel, e)
  {
    DispatchCompounddef(ctx, fuel, e);
    assert KindRenderer(e.tag, "struct") == Some(CompoundStruct);
  }

  lemma DispatchFile(ctx: Context, fuel: nat, e: Element)
    requires e.tag == "compounddef" && Attr(e, "kind") == Some("file")
    ensures Render(ctx, fuel, e) == CompounddefFile(ctx, fuel, e)
  {
    DispatchCompounddef(ctx, fuel, e);
    assert KindRenderer(e.tag, "file") == Some(CompoundFile);
  }

  // ---- the tag dispatch ----

  /** A tag without `render_<tag>` never fails: it yields exactly a warning
      box and a reporter warning carrying the same message, which quotes the
      tag as Python's repr does; for an XML name that is the tag in single quotes. */
  lemma UnknownTagIsSoft(ctx: Context, fuel: nat, e: Element)
    requires TagRenderer(e.tag).None?
    ensures Render(ctx, fuel, e).Ok?
    ensures var items := Render(ctx, fuel, e).value;
      |items| == 2 &&
      items[0] == Warning(NoRendererMessage(e.tag)) &&
      items[1] == ReporterWarning(NoRendererMessage(e.tag), ctx.lineno)
    ensures (forall i :: 0 <= i < |e.tag| ==> PyText.Plain(e.tag[i])) ==>
      NoRendererMessage(e.tag) == "asphyxiate: No renderer found for doxygen tag '" + e.tag + "'"
  {
    if forall i :: 0 <= i < |e.tag| ==> PyText.Plain(e.tag[i]) {
      PyText.PlainRepr(e.tag);
    }
  }

  // ---- the kind dispatch ----

  /** memberdef and compounddef dispatch on (tag, kind): a pair without
      `_render_<tag>_<kind>` fails hard, naming tag and kind; otherwise the
      result is exactly that renderer's. */
  lemma KindDispatchIsHard(ctx: Context, fuel: nat, e: Element)
    requires e.tag == "memberdef" || e.tag == "compounddef"
    ensures Attr(e, "kind").None? ==> Render(ctx, fuel, e) == Err(MissingAttribute("kind"))
    ensures Attr(e, "kind").Some? && KindRenderer(e.tag, Attr(e, "kind").value).None? ==>
      Render(ctx, fuel, e) == Err(CannotHandle(e.tag, Attr(e, "kind").value)) &&
      Message(Render(ctx, fuel, e).error) == "cannot handle " + e.tag + " kind=" + Attr(e, "kind").value
    ensures Attr(e, "kind") == Some("function") && e.tag == "memberdef" ==> Render(ctx, fuel, e) == MemberdefFunction(e)
    ensures Attr(e, "kind") == Some("define") && e.tag == "memberdef" ==> Render(ctx, fuel, e) == MemberdefDefine(e)
    ensures Attr(e, "kind") == Some("typedef") && e.tag == "memberdef" ==> Render(ctx, fuel, e) == MemberdefTypedef(e)
    ensures Attr(e, "kind") == Some("variable") && e.tag == "memberdef" ==> Render(ctx, fuel, e) == MemberdefVariable(e)
    ensures Attr(e, "kind") == Some("file") && e.tag == "compounddef" ==> Render(ctx, fuel, e) == CompounddefFile(ctx, fuel, e)
    ensures Attr(e, "kind") == Some("struct") && e.tag == "compounddef" ==> Render(ctx, fuel, e) == CompounddefStruct(ctx, fuel, e)
  {
  }

  // ---- the memberdef renderers ----

  /** Every memberdef renderer fails unless prot is public, with the same
      "cannot handle" error as a missing renderer. */
  lemma MemberdefRequiresPublic(ctx: Context, fuel: nat, e: Element, kind: string)
    requires e.tag == "memberdef" && Attr(e, "kind") == Some(kind)
    requires kind in {"function", "define", "typedef", "variable"}
    requires !IsPublic(e)
    ensures Render(ctx, fuel, e) == Err(CannotHandle("memberdef", kind))
  {
  }

  /** A function's usage is its type, a space, its name and its argument string. */
  lemma FunctionUsage(ctx: Context, fuel: nat, e: Element, t: string, n: string, a: string)
    requires e.tag == "memberdef" && Attr(e, "kind") == Some("function") && IsPublic(e)
    requires FirstText(e, "type") == Some(t) && FirstText(e, "name") == Some(n)
    requires FirstText(e, "argsstring") == Some(a)
    ensures Render(ctx, fuel, e) == Ok([Directive("function", t + " " + n + a, ContentLines(e))])
  {
  }

  /** A variable's usage is its type, a space and its name. */
  lemma VariableUsage(ctx: Context, fuel: nat, e: Element, t: string, n: string)
    requires e.tag == "memberdef" && Attr(e, "kind") == Some("variable") && IsPublic(e)
    requires FirstText(e, "type") == Some(t) && FirstText(e, "name") == Some(n)
    ensures Render(ctx, fuel, e) == Ok([Directive("member", t + " " + n, ContentLines(e))])
  {
  }

  /** A define's and a typedef's usage is the name alone. */
  lemma NameOnlyUsage(ctx: Context, fuel: nat, e: Element, n: string)
    requires e.tag == "memberdef" && IsPublic(e) && FirstText(e, "name") == Some(n)
    ensures Attr(e, "kind") == Some("define") ==>
      Render(ctx, fuel, e) == Ok([Directive("macro", n, ContentLines(e))])
    ensures Attr(e, "kind") == Some("typedef") ==>
      Render(ctx, fuel, e) == Ok([Directive("type", n, ContentLines(e))])
  {
  }

  /** A required child text the renderer indexes is a hard failure when absent. */
  lemma MissingNameFails(ctx: Context, fuel: nat, e: Element, kind: string)
    requires e.tag == "memberdef" && Attr(e, "kind") == Some(kind) && IsPublic(e)
    requires kind in {"define", "typedef"} && FirstText(e, "name").None?
    ensures Render(ctx, fuel, e) == Err(MissingText("name"))
  {
  }

  /** A public memberdef of a supported kind renders to exactly one directive
      or fails hard; it never yields a warning. */
  lemma MemberdefYieldsOneDirective(ctx: Context, fuel: nat, e: Element)
    requires e.tag == "memberdef"
    ensures Render(ctx, fuel, e).Ok? ==>
      |Render(ctx, fuel, e).value| == 1 && Render(ctx, fuel, e).value[0].Directive? &&
      Render(ctx, fuel, e).value[0].contents == ContentLines(e)
  {
  }

  // ---- content lines ----

  /** Each description text, in order, followed by an empty line. */
  lemma {:induction false} PairedShape(ts: seq<string>)
    ensures |Paired(ts)| == 2 * |ts|
    ensures forall i :: 0 <= i < |ts| ==> Paired(ts)[2 * i] == ts[i] && Paired(ts)[2 * i + 1] == ""
  {
    if ts != [] {
      var init := ts[..|ts| - 1];
      PairedShape(init);
      forall i | 0 <= i < |ts|
        ensures Paired(ts)[2 * i] == ts[i] && Paired(ts)[2 * i + 1] == ""
      {
        if i < |ts| - 1 {
          assert Paired(ts)[2 * i] == Paired(init)[2 * i];
          assert Paired(ts)[2 * i + 1] == Paired(init)[2 * i + 1];
        }
      }
    }
  }

  /** One more text of the loop that builds a content list. */
  lemma PairedSnoc(ts: seq<string>, i: nat)
    requires i < |ts|
    ensures Paired(ts[..i + 1]) == Paired(ts[..i]) + [ts[i], ""]
  {
    assert ts[..i + 1][..i] == ts[..i];
  }

  lemma {:induction false} PairedAppend(a: seq<string>, b: seq<string>)
    ensures Paired(a + b) == Paired(a) + Paired(b)
    decreases |b|
  {
    if b == [] {
      assert a + b == a;
    } else {
      var b' := b[..|b| - 1];
      assert (a + b)[..|a + b| - 1] == a + b';
      assert (a + b)[|a + b| - 1] == b[|b| - 1];
      PairedAppend(a, b');
    }
  }

  /** The content list: twice as long as there are description texts, the
      texts at even positions in document order (brief first, then detailed)
      and empty lines at odd positions. */
  lemma ContentLinesShape(e: Element)
    ensures var ts := ParaTexts(e, "briefdescription") + ParaTexts(e, "detaileddescription");
      |ContentLines(e)| == 2 * |ts| &&
      forall i :: 0 <= i < |ts| ==> ContentLines(e)[2 * i] == ts[i] && ContentLines(e)[2 * i + 1] == ""
  {
    PairedShape(DescriptionTexts(e));
  }

  // ---- sectiondef ----

  lemma SectionTitles(kind: string)
    ensures SectionTitle(kind).Some? <==> kind in {"func", "define", "typedef", "public-attrib"}
    ensures kind == "func" ==> SectionTitle(kind) == Some("Functions")
    ensures kind == "define" ==> SectionTitle(kind) == Some("Defines")
    ensures kind == "typedef" ==> SectionTitle(kind) == Some("Types")
    ensures kind == "public-attrib" ==> SectionTitle(kind) == Some("Members")
  {
  }

  /** A sectiondef yields exactly one section, identified by its kind, whose
      first child is the title of the kind, followed by the renderings of
      its non-location children in order; an unknown kind fails hard, and so
      does a failing child.  A titled kind whose children render succeeds. */
  lemma SectiondefShape(ctx: Context, fuel: nat, e: Element, kind: string)
    requires e.tag == "sectiondef" && Attr(e, "kind") == Some(kind)
    ensures SectionTitle(kind).None? ==> Render(ctx, fuel, e) == Err(CannotHandle("sectiondef", kind))
    ensures Render(ctx, fuel, e).Ok? ==>
      SectionTitle(kind).Some? &&
      var items := Render(ctx, fuel, e).value;
      |items| == 1 && items[0].Section? && items[0].ids == kind &&
      |items[0].children| >= 1 && items[0].children[0] == Title(SectionTitle(kind).value) &&
      RenderSeq(ctx, fuel, Exclude(e.children, {"location"})) == Ok(items[0].children[1..])
    ensures SectionTitle(kind).Some? && RenderSeq(ctx, fuel, Exclude(e.children, {"location"})).Err? ==>
      Render(ctx, fuel, e) == RenderSeq(ctx, fuel, Exclude(e.children, {"location"}))
    ensures SectionTitle(kind).Some? && RenderSeq(ctx, fuel, Exclude(e.children, {"location"})).Ok? ==>
      Render(ctx, fuel, e) == Ok([Section(kind, [Title(SectionTitle(kind).value)] +
                                   RenderSeq(ctx, fuel, Exclude(e.children, {"location"})).value)])
  {
    assert Render(ctx, fuel, e) == RenderSectiondef(ctx, fuel, e) by {
      assert TagRenderer(e.tag) == Some(SectiondefCase);
    }
    if Render(ctx, fuel, e).Ok? {
      var items := Render(ctx, fuel, e).value;
      var rest := RenderSeq(ctx, fuel, Exclude(e.children, {"location"})).value;
      assert items[0].children == [Title(SectionTitle(kind).value)] + rest;
      assert items[0].children[1..] == rest;
    }
  }

  /** A location child, wherever it stands, changes nothing in a sectiondef's rendering. */
  lemma LocationIgnored(ctx: Context, fuel: nat, e: Element, i: nat, loc: Element)
    requires e.tag == "sectiondef" && i <= |e.children| && loc.tag == "location"
    ensures Render(ctx, fuel, e.(children := e.children[..i] + [loc] + e.children[i..])) == Render(ctx, fuel, e)
  {
    ExcludeInsertSkipped(e.children, i, loc, {"location"});
  }

  // ---- compounddef ----

  /** A file compound is transparent: its items are those of its children
      other than compoundname, briefdescription, detaileddescription, location
      and listofallmembers, in order, with no wrapping section. */
  lemma FileCompoundSkips(ctx: Context, fuel: nat, e: Element, i: nat, c: Element)
    requires e.tag == "compounddef" && Attr(e, "kind") == Some("file")
    requires i <= |e.children| && c.tag in FileSkip
    ensures Render(ctx, fuel, e) == RenderSeq(ctx, fuel, Exclude(e.children, FileSkip))
    ensures Render(ctx, fuel, e.(children := e.children[..i] + [c] + e.children[i..])) == Render(ctx, fuel, e)
  {
    var e' := e.(children := e.children[..i] + [c] + e.children[i..]);
    ExcludeInsertSkipped(e.children, i, c, FileSkip);
    DispatchFile(ctx, fuel, e);
    DispatchFile(ctx, fuel, e');
  }

  /** Unlike a struct, a file compound does not skip `includes`, which has no
      renderer: an `includes` child, wherever it stands, adds the unknown-tag
      warning pair at its place among the items of the other children. */
  lemma FileRendersIncludes(ctx: Context, fuel: nat, e: Element, i: nat, inc: Element)
    requires e.tag == "compounddef" && Attr(e, "kind") == Some("file")
    requires i <= |e.children| && inc.tag == "includes"
    ensures Render(ctx, fuel, e) ==
      Then(RenderSeq(ctx, fuel, Exclude(e.children[..i], FileSkip)),
           RenderSeq(ctx, fuel, Exclude(e.children[i..], FileSkip)))
    ensures Render(ctx, fuel, e.(children := e.children[..i] + [inc] + e.children[i..])) ==
      Then(RenderSeq(ctx, fuel, Exclude(e.children[..i], FileSkip)),
           Then(Ok(UnknownTag(ctx, "includes")), RenderSeq(ctx, fuel, Exclude(e.children[i..], FileSkip))))
  {
    var a, b := e.children[..i], e.children[i..];
    var e' := e.(children := a + [inc] + b);
    var ea, eb := Exclude(a, FileSkip), Exclude(b, FileSkip);
    assert a + b == e.children;
    ExcludeAppend(a, b, FileSkip);
    RenderSeqAppend(ctx, fuel, ea, eb);
    DispatchFile(ctx, fuel, e);
    assert Exclude([inc], FileSkip) == [inc] by {
      assert [inc][1..] == [];
    }
    ExcludeAppend(a, [inc], FileSkip);
    ExcludeAppend(a + [inc], b, FileSkip);
    ConcatAssociative(ea, [inc], eb);
    RenderSeqAppend(ctx, fuel, ea, [inc] + eb);
    RenderSeqAppend(ctx, fuel, [inc], eb);
    assert TagRenderer(inc.tag).None?;
    RenderSeqSingle(ctx, fuel, inc);
    DispatchFile(ctx, fuel, e');
  }

  /** A struct compound skips `includes`: such a child, wherever it stands,
      changes nothing in the struct's rendering. */
  lemma StructSkipsIncludes(ctx: Context, fuel: nat, e: Element, i: nat, inc: Element)
    requires e.tag == "compounddef" && Attr(e, "kind") == Some("struct")
    requires i <= |e.children| && inc.tag == "includes"
    ensures Render(ctx, fuel, e.(children := e.children[..i] + [inc] + e.children[i..])) == Render(ctx, fuel, e)
  {
    var e' := e.(children := e.children[..i] + [inc] + e.children[i..]);
    ExcludeInsertSkipped(e.children, i, inc, StructSkip);
    ChildrenTaggedInsert(e.children, i, inc, "compoundname");
    ChildrenTaggedInsert(e.children, i, inc, "briefdescription");
    ChildrenTaggedInsert(e.children, i, inc, "detaileddescription");
    assert ContentLines(e') == ContentLines(e);
    assert FirstText(e', "compoundname") == FirstText(e, "compoundname");
    DispatchStruct(ctx, fuel, e);
    DispatchStruct(ctx, fuel, e');
  }

  /** A struct compound yields one section whose id and title are
      "Struct <compoundname>": first the title, then the C type directive for
      "struct <compoundname>" with the description lines, then the renderings
      of the children that are not skipped, in order. */
  lemma StructSection(ctx: Context, fuel: nat, e: Element, name: string, items: seq<Node>)
    requires e.tag == "compounddef" && Attr(e, "kind") == Some("struct")
    requires FirstText(e, "compoundname") == Some(name)
    requires RenderSeq(ctx, fuel, Exclude(e.children, StructSkip)) == Ok(items)
    ensures Render(ctx, fuel, e) ==
      Ok([Section("Struct " + name,
         [Title("Struct " + name), Directive("type", "struct " + name, ContentLines(e))] + items)])
  {
    DispatchStruct(ctx, fuel, e);
  }

  /** A kept child of a named struct that fails makes the whole struct fail
      with that child's error. */
  lemma StructChildFails(ctx: Context, fuel: nat, e: Element)
    requires e.tag == "compounddef" && Attr(e, "kind") == Some("struct")
    requires FirstText(e, "compoundname").Some?
    requires RenderSeq(ctx, fuel, Exclude(e.children, StructSkip)).Err?
    ensures Render(ctx, fuel, e) == RenderSeq(ctx, fuel, Exclude(e.children, StructSkip))
  {
    DispatchStruct(ctx, fuel, e);
  }

  /** A struct without compoundname fails hard before anything is rendered. */
  lemma StructNeedsName(ctx: Context, fuel: nat, e: Element)
    requires e.tag == "compounddef" && Attr(e, "kind") == Some("struct")
    requires FirstText(e, "compoundname").None?
    ensures Render(ctx, fuel, e) == Err(MissingText("compoundname"))
  {
    DispatchStruct(ctx, fuel, e);
  }

  // ---- referenced documents ----

  /** `render_compound` accepts only file compounds; `render_innerclass` takes
      any kind.  Both render every child of the referenced document's root. */
  lemma CompoundLoadsDocument(ctx: Context, fuel: nat, e: Element, refid: string)
    requires e.tag in {"compound", "innerclass"} && Attr(e, "refid") == Some(refid)
    requires refid in ctx.documents && fuel > 0
    ensures e.tag == "compound" && Attr(e, "kind") != Some("file") ==> Render(ctx, fuel, e) == Err(CannotHandleError(e))
    ensures e.tag == "innerclass" || Attr(e, "kind") == Some("file") ==>
      Render(ctx, fuel, e) == RenderSeq(ctx, fuel - 1, ctx.documents[refid].children)
  {
    if e.tag == "compound" {
      assert TagRenderer(e.tag) == Some(CompoundCase);
      assert Render(ctx, fuel, e) == RenderCompound(ctx, fuel, e);
      if Attr(e, "kind") == Some("file") {
        assert RenderCompound(ctx, fuel, e) == RenderDocument(ctx, fuel, e);
      }
    } else {
      assert TagRenderer(e.tag) == Some(InnerclassCase);
      assert Render(ctx, fuel, e) == RenderDocument(ctx, fuel, e);
    }
  }

  lemma MissingDocumentFails(ctx: Context, fuel: nat, e: Element, refid: string)
    requires e.tag == "innerclass" || (e.tag == "compound" && Attr(e, "kind") == Some("file"))
    requires Attr(e, "refid") == Some(refid) && refid !in ctx.documents
    ensures Render(ctx, fuel, e) == Err(MissingDocument(refid))
  {
    if e.tag == "compound" {
      assert Render(ctx, fuel, e) == RenderCompound(ctx, fuel, e);
      assert RenderCompound(ctx, fuel, e) == RenderDocument(ctx, fuel, e);
    } else {
      assert Render(ctx, fuel, e) == RenderDocument(ctx, fuel, e);
    }
  }

  // ---- the fuel bound ----

  /** More fuel changes nothing but the outcome "recursion limit": the bound on
      nested document loads is the only thing the fuel adds to the source. */
  lemma {:induction false} FuelMonotone(ctx: Context, f: nat, g: nat, e: Element)
    requires f <= g && Render(ctx, f, e) != Err(RecursionLimit)
    ensures Render(ctx, g, e) == Render(ctx, f, e)
    decreases f, Size(e), 2
  {
    match TagRenderer(e.tag)
    case None =>
    case Some(MemberdefCase) => FuelByKind(ctx, f, g, e);
    case Some(CompounddefCase) => FuelByKind(ctx, f, g, e);
    case Some(SectiondefCase) =>
      var kind := Attr(e, "kind");
      if kind.Some? && SectionTitle(kind.value).Some? {
        ExcludeSmaller(e.children, {"location"});
        FuelSeq(ctx, f, g, Exclude(e.children, {"location"}));
      }
    case Some(CompoundCase) =>
      if Attr(e, "kind") == Some("file") { FuelDocument(ctx, f, g, e); }
    case Some(InnerclassCase) => FuelDocument(ctx, f, g, e);
  }

  lemma {:induction false} FuelSeq(ctx: Context, f: nat, g: nat, cs: seq<Element>)
    requires f <= g && RenderSeq(ctx, f, cs) != Err(RecursionLimit)
    ensures RenderSeq(ctx, g, cs) == RenderSeq(ctx, f, cs)
    decreases f, SeqSize(cs), 3
  {
    if cs != [] {
      var head := Render(ctx, f, cs[0]);
      if head.Ok? {
        FuelMonotone(ctx, f, g, cs[0]);
        FuelSeq(ctx, f, g, cs[1..]);
      } else {
        FuelMonotone(ctx, f, g, cs[0]);
      }
    }
  }

  lemma {:induction false} FuelByKind(ctx: Context, f: nat, g: nat, e: Element)
    requires f <= g && RenderByKind(ctx, f, e) != Err(RecursionLimit)
    ensures RenderByKind(ctx, g, e) == RenderByKind(ctx, f, e)
    decreases f, Size(e), 1
  {
    match Attr(e, "kind")
    case None =>
    case Some(kind) =>
      match KindRenderer(e.tag, kind)
      case Some(CompoundFile) =>
        ExcludeSmaller(e.children, FileSkip);
        FuelSeq(ctx, f, g, Exclude(e.children, FileSkip));
      case Some(CompoundStruct) =>
        if Text(e, "compoundname").Ok? {
          ExcludeSmaller(e.children, StructSkip);
          FuelSeq(ctx, f, g, Exclude(e.children, StructSkip));
        }
      case _ =>
  }

  lemma {:induction false} FuelDocument(ctx: Context, f: nat, g: nat, e: Element)
    requires f <= g && RenderDocument(ctx, f, e) != Err(RecursionLimit)
    ensures RenderDocument(ctx, g, e) == RenderDocument(ctx, f, e)
    decreases f, Size(e), 0
  {
    match Attr(e, "refid")
    case None =>
    case Some(refid) =>
      if refid in ctx.documents && f > 0 {
        FuelSeq(ctx, f - 1, g - 1, ctx.documents[refid].children);
      }
  }
}
