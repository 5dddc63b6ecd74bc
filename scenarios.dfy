/** Concrete Doxygen inputs and what the transformer makes of them: a public
    function `add`, the same function when protected, the struct `Point` with
    its members `x` and `y`, and a `doxygenfile` directive that names a file
    the index does not list. */
module Scenarios {
  import opened Xml
  import opened Docs
  import opened Transform
  import opened TransformLemmas
  import FileDirective

  /** An element with no attributes and no children holding just `text`. */
  function Leaf(tag: string, text: string): Element
  {
    Element(tag, map[], text, [], "")
  }

  /** A description element holding one paragraph. */
  function Description(tag: string, text: string): Element
  {
    Element(tag, map[], "", [Leaf("para", text)], "")
  }

  /** A child tagged `tag` that is a leaf of nonempty text, and no other
      child so tagged, gives that text to `./tag/text()[0]`. */
  lemma OnlyLeafText(e: Element, tag: string, t: string)
    requires t != ""
    requires ChildrenTagged(e.children, tag) == [Leaf(tag, t)]
    ensures FirstText(e, tag) == Some(t)
  {
    assert TextNodes(Leaf(tag, t)) == [t];
    assert TextsOf([Leaf(tag, t)]) == [t];
  }

  /** `./tag` over two and over four children, one child at a time. */
  lemma TaggedOfTwo(a: Element, b: Element, tag: string)
    ensures ChildrenTagged([a, b], tag) ==
      (if a.tag == tag then [a] else []) + (if b.tag == tag then [b] else [])
  {
    assert [a, b][1..] == [b];
    assert [b][1..] == [];
  }

  lemma TaggedOfFour(a: Element, b: Element, c: Element, d: Element, tag: string)
    ensures ChildrenTagged([a, b, c, d], tag) ==
      (if a.tag == tag then [a] else []) + (if b.tag == tag then [b] else []) +
      ChildrenTagged([c, d], tag)
  {
    assert [a, b, c, d][1..] == [b, c, d];
    assert [b, c, d][1..] == [c, d];
  }

  lemma TaggedOfThree(a: Element, b: Element, c: Element, tag: string)
    ensures ChildrenTagged([a, b, c], tag) ==
      (if a.tag == tag then [a] else []) + ChildrenTagged([b, c], tag)
  {
    assert [a, b, c][1..] == [b, c];
  }

  /** The children a renderer keeps, over two and over three children. */
  lemma KeptOfTwo(a: Element, b: Element, skip: set<string>)
    ensures Exclude([a, b], skip) ==
      (if a.tag in skip then [] else [a]) + (if b.tag in skip then [] else [b])
  {
    assert [a, b][1..] == [b];
    assert [b][1..] == [];
  }

  lemma KeptOfThree(a: Element, b: Element, c: Element, skip: set<string>)
    ensures Exclude([a, b, c], skip) == (if a.tag in skip then [] else [a]) + Exclude([b, c], skip)
  {
    assert [a, b, c][1..] == [b, c];
  }

  /** Two elements rendered one after the other. */
  lemma RenderTwo(ctx: Context, fuel: nat, a: Element, b: Element)
    ensures RenderSeq(ctx, fuel, [a, b]) == Then(Render(ctx, fuel, a), Render(ctx, fuel, b))
  {
    assert [a, b][1..] == [b];
    RenderSeqSingle(ctx, fuel, b);
  }

  /** A paragraph of nonempty text gives a description that text alone. */
  lemma DescriptionText(e: Element, tag: string, t: string)
    requires t != ""
    requires ChildrenTagged(e.children, tag) == [Description(tag, t)]
    ensures ParaTexts(e, tag) == [t]
  {
    var d := Description(tag, t);
    assert ChildrenTagged(d.children, "para") == [Leaf("para", t)];
    assert TextNodes(Leaf("para", t)) == [t];
    assert TextsOf([Leaf("para", t)]) == [t];
    assert ChildTexts(d, "para") == [t];
    assert ParaTextsOf([d]) == [t];
  }

  // ---- the function `add` ----

  function AddChildren(): seq<Element>
  {
    [Leaf("type", "int"), Leaf("name", "add"), Leaf("argsstring", "(int a, int b)"),
     Description("briefdescription", "Add two numbers.")]
  }

  function AddFunction(prot: string): Element
  {
    Element("memberdef", map["kind" := "function", "prot" := prot], "", AddChildren(), "")
  }

  lemma AddTexts(prot: string)
    ensures FirstText(AddFunction(prot), "type") == Some("int")
    ensures FirstText(AddFunction(prot), "name") == Some("add")
    ensures FirstText(AddFunction(prot), "argsstring") == Some("(int a, int b)")
  {
    var e := AddFunction(prot);
    var d := Description("briefdescription", "Add two numbers.");
    TaggedOfTwo(Leaf("argsstring", "(int a, int b)"), d, "type");
    TaggedOfTwo(Leaf("argsstring", "(int a, int b)"), d, "name");
    TaggedOfTwo(Leaf("argsstring", "(int a, int b)"), d, "argsstring");
    TaggedOfFour(Leaf("type", "int"), Leaf("name", "add"), Leaf("argsstring", "(int a, int b)"), d, "type");
    TaggedOfFour(Leaf("type", "int"), Leaf("name", "add"), Leaf("argsstring", "(int a, int b)"), d, "name");
    TaggedOfFour(Leaf("type", "int"), Leaf("name", "add"), Leaf("argsstring", "(int a, int b)"), d, "argsstring");
    OnlyLeafText(e, "type", "int");
    OnlyLeafText(e, "name", "add");
    OnlyLeafText(e, "argsstring", "(int a, int b)");
  }

  lemma AddContent(prot: string)
    ensures ContentLines(AddFunction(prot)) == ["Add two numbers.", ""]
  {
    var e := AddFunction(prot);
    var d := Description("briefdescription", "Add two numbers.");
    TaggedOfTwo(Leaf("argsstring", "(int a, int b)"), d, "briefdescription");
    TaggedOfTwo(Leaf("argsstring", "(int a, int b)"), d, "detaileddescription");
    TaggedOfFour(Leaf("type", "int"), Leaf("name", "add"), Leaf("argsstring", "(int a, int b)"), d, "briefdescription");
    TaggedOfFour(Leaf("type", "int"), Leaf("name", "add"), Leaf("argsstring", "(int a, int b)"), d, "detaileddescription");
    DescriptionText(e, "briefdescription", "Add two numbers.");
    assert ParaTexts(e, "detaileddescription") == [];
    assert DescriptionTexts(e) == ["Add two numbers."];
    assert Paired(["Add two numbers."]) == ["Add two numbers.", ""];
  }

  lemma AddHeader(prot: string)
    ensures AddFunction(prot).tag == "memberdef" && Attr(AddFunction(prot), "kind") == Some("function")
    ensures IsPublic(AddFunction(prot)) <==> prot == "public"
  {
    assert "kind" != "prot";
  }

  lemma AddSignatureText()
    ensures "int" + " " + "add" + "(int a, int b)" == "int add(int a, int b)"
  {
    assert "int" + " " + "add" == "int add";
    assert ("int add" + "(int a, int b)")[7..] == "(int a, int b)";
  }

  /** The public function yields one C function directive whose signature
      reads "int add(int a, int b)" and whose content is its brief
      description followed by an empty line. */
  lemma AddRendersSignature(ctx: Context, fuel: nat)
    ensures Render(ctx, fuel, AddFunction("public")) ==
      Ok([Directive("function", "int add(int a, int b)", ["Add two numbers.", ""])])
  {
    AddHeader("public");
    AddTexts("public");
    AddContent("public");
    FunctionUsage(ctx, fuel, AddFunction("public"), "int", "add", "(int a, int b)");
    AddSignatureText();
  }

  /** The same function, protected, stops the rendering with the memberdef's
      tag and kind in the message. */
  lemma ProtectedAddFails(ctx: Context, fuel: nat)
    ensures Render(ctx, fuel, AddFunction("protected")) == Err(CannotHandle("memberdef", "function"))
  {
    var e := AddFunction("protected");
    AddHeader("protected");
    MemberdefRequiresPublic(ctx, fuel, e, "function");
  }

  // ---- the struct `Point` ----

  function Member(name: string): Element
  {
    Element("memberdef", map["kind" := "variable", "prot" := "public"], "",
            [Leaf("type", "int"), Leaf("name", name)], "")
  }

  function Attributes(): Element
  {
    Element("sectiondef", map["kind" := "public-attrib"], "", [Member("x"), Member("y")], "")
  }

  function Point(): Element
  {
    Element("compounddef", map["kind" := "struct", "prot" := "public"], "",
            [Leaf("compoundname", "Point"), Attributes(), Leaf("location", "")], "")
  }

  lemma MemberRenders(ctx: Context, fuel: nat, name: string)
    requires name != ""
    ensures Render(ctx, fuel, Member(name)) == Ok([Directive("member", "int " + name, [])])
  {
    var e := Member(name);
    TaggedOfTwo(Leaf("type", "int"), Leaf("name", name), "type");
    TaggedOfTwo(Leaf("type", "int"), Leaf("name", name), "name");
    TaggedOfTwo(Leaf("type", "int"), Leaf("name", name), "briefdescription");
    TaggedOfTwo(Leaf("type", "int"), Leaf("name", name), "detaileddescription");
    OnlyLeafText(e, "type", "int");
    OnlyLeafText(e, "name", name);
    assert ContentLines(e) == [];
    VariableUsage(ctx, fuel, e, "int", name);
    assert "int" + " " + name == "int " + name;
  }

  /** The public attributes become a "Members" section listing x then y. */
  lemma AttributesRender(ctx: Context, fuel: nat)
    ensures Render(ctx, fuel, Attributes()) ==
      Ok([Section("public-attrib",
         [Title("Members"), Directive("member", "int x", []), Directive("member", "int y", [])])])
  {
    var e := Attributes();
    MemberRenders(ctx, fuel, "x");
    MemberRenders(ctx, fuel, "y");
    assert "int " + "x" == "int x" && "int " + "y" == "int y";
    KeptOfTwo(Member("x"), Member("y"), {"location"});
    assert Exclude(e.children, {"location"}) == [Member("x"), Member("y")];
    RenderTwo(ctx, fuel, Member("x"), Member("y"));
    var items := [Directive("member", "int x", []), Directive("member", "int y", [])];
    assert [Directive("member", "int x", [])] + [Directive("member", "int y", [])] == items;
    assert RenderSeq(ctx, fuel, Exclude(e.children, {"location"})) == Ok(items);
    assert TagRenderer(e.tag) == Some(SectiondefCase);
    assert SectionTitle("public-attrib") == Some("Members");
    assert [Title("Members")] + items ==
      [Title("Members"), Directive("member", "int x", []), Directive("member", "int y", [])];
  }

  lemma PointTexts()
    ensures Point().tag == "compounddef" && Attr(Point(), "kind") == Some("struct")
    ensures FirstText(Point(), "compoundname") == Some("Point")
    ensures ContentLines(Point()) == []
  {
    var e := Point();
    var cn, loc := Leaf("compoundname", "Point"), Leaf("location", "");
    assert "kind" != "prot";
    TaggedOfThree(cn, Attributes(), loc, "compoundname");
    TaggedOfTwo(Attributes(), loc, "compoundname");
    OnlyLeafText(e, "compoundname", "Point");
    TaggedOfThree(cn, Attributes(), loc, "briefdescription");
    TaggedOfTwo(Attributes(), loc, "briefdescription");
    TaggedOfThree(cn, Attributes(), loc, "detaileddescription");
    TaggedOfTwo(Attributes(), loc, "detaileddescription");
  }

  lemma PointNames()
    ensures "Struct " + "Point" == "Struct Point" && "struct " + "Point" == "struct Point"
  {
    assert ("Struct " + "Point")[7..] == "Point";
    assert ("struct " + "Point")[7..] == "Point";
  }

  lemma PointKeeps()
    ensures Exclude(Point().children, StructSkip) == [Attributes()]
  {
    var cn, loc := Leaf("compoundname", "Point"), Leaf("location", "");
    KeptOfThree(cn, Attributes(), loc, StructSkip);
    KeptOfTwo(Attributes(), loc, StructSkip);
  }

  /** A struct whose kept children render to a single item. */
  lemma StructOfOne(ctx: Context, fuel: nat, e: Element, name: string, item: Node)
    requires e.tag == "compounddef" && Attr(e, "kind") == Some("struct")
    requires FirstText(e, "compoundname") == Some(name)
    requires RenderSeq(ctx, fuel, Exclude(e.children, StructSkip)) == Ok([item])
    ensures Render(ctx, fuel, e) ==
      Ok([Section("Struct " + name,
         [Title("Struct " + name), Directive("type", "struct " + name, ContentLines(e)), item])])
  {
    StructSection(ctx, fuel, e, name, [item]);
    var header := [Title("Struct " + name), Directive("type", "struct " + name, ContentLines(e))];
    assert header + [item] == [header[0], header[1], item];
  }

  /** The struct becomes the section "Struct Point": its title, the type
      directive for "struct Point", then the Members section. */
  lemma PointRenders(ctx: Context, fuel: nat)
    ensures Render(ctx, fuel, Point()) ==
      Ok([Section("Struct Point",
         [Title("Struct Point"), Directive("type", "struct Point", []),
          Section("public-attrib",
            [Title("Members"), Directive("member", "int x", []), Directive("member", "int y", [])])])])
  {
    var e := Point();
    PointTexts();
    PointKeeps();
    AttributesRender(ctx, fuel);
    RenderSeqSingle(ctx, fuel, Attributes());
    StructOfOne(ctx, fuel, e, "Point", Render(ctx, fuel, Attributes()).value[0]);
    PointNames();
  }

  // ---- a directive naming an unlisted file ----

  function IndexFor(name: string): Element
  {
    Element("doxygenindex", map[], "",
      [Element("compound", map["kind" := "file", "refid" := "other_8h"], "", [Leaf("name", name)], "")], "")
  }

  /** An index listing only "other.h" gives the directive for "sum.h" no match:
      the result is empty and there is no error. */
  lemma UnlistedFileIsEmpty(path: string, lineno: int, docs: map<string, Element>, fuel: nat)
    ensures FileDirective.Run(Some(path), Context(lineno, docs[FileDirective.IndexDocument := IndexFor("other.h")]), fuel, "sum.h") == Ok([])
  {
    var ctx := Context(lineno, docs[FileDirective.IndexDocument := IndexFor("other.h")]);
    var index := IndexFor("other.h");
    var entry := index.children[0];
    assert StringValue(Leaf("name", "other.h")) == "other.h" by {
      assert StringValueOf([]) == "";
    }
    assert !FileDirective.IsFileEntry(entry, "sum.h") by {
      assert entry.children == [Leaf("name", "other.h")];
      assert "other.h" != "sum.h";
    }
    var all := DescendantsOrSelf(index);
    assert DescendantsOrSelf(Leaf("name", "other.h")) == [Leaf("name", "other.h")];
    assert DescendantsOrSelf(entry) == [entry, Leaf("name", "other.h")];
    assert all == [index, entry, Leaf("name", "other.h")];
    FileDirective.NoMatchIsEmpty(path, ctx, fuel, "sum.h");
  }
}
