/** The `doxygenfile` directive (class AsphyxiateFileDirective): look up the
    file compounds of the Doxygen index that carry the directive's argument as
    their name, and render each of them.

    The index is the document `index.xml` of the Doxygen output directory; like
    every other document of that directory it is found in the context's map,
    under the key "index". */
module FileDirective {
  import opened Xml
  import opened Docs
  import Transform
  import opened TransformLemmas
  import Renderer

  const IndexDocument := "index"

  /** `name=$name` of the index query: some `name` child whose string value is
      exactly the given name. */
  predicate Named(cs: seq<Element>, name: string)
  {
    exists i :: 0 <= i < |cs| && cs[i].tag == "name" && StringValue(cs[i]) == name
  }

  /** `compound[@kind='file' and name=$name]`. */
  predicate IsFileEntry(c: Element, filename: string)
  {
    c.tag == "compound" && Attr(c, "kind") == Some("file") && Named(c.children, filename)
  }

  /** The elements of `cs` that are entries for `filename`, in their order. */
  function FileEntries(cs: seq<Element>, filename: string): (r: seq<Element>)
    ensures |r| <= |cs|
    ensures forall i :: 0 <= i < |r| ==> IsFileEntry(r[i], filename)
  {
    if cs == [] then []
    else (if IsFileEntry(cs[0], filename) then [cs[0]] else []) + FileEntries(cs[1..], filename)
  }

  /** `//compound[...]` evaluated on the index document: every matching
      element anywhere in it, in document order. */
  function MatchingCompounds(index: Element, filename: string): seq<Element>
  {
    FileEntries(DescendantsOrSelf(index), filename)
  }

  /** What `run` returns once `listify` has drained it: the configuration
      check first, then the index, then the items of every match in order. */
  function Run(xmlPath: Option<string>, ctx: Transform.Context, fuel: nat, filename: string): Result<seq<Node>>
  {
    if xmlPath.None? then Err(MissingConfig)
    else if IndexDocument !in ctx.documents then Err(MissingDocument(IndexDocument))
    else Transform.RenderSeq(ctx, fuel, MatchingCompounds(ctx.documents[IndexDocument], filename))
  }

  /** `run` under `listify`: the generator's items are gathered into one list,
      and an exception raised while draining it ends the call. */
  method RunDirective(xmlPath: Option<string>, ctx: Transform.Context, fuel: nat, filename: string)
    returns (r: Result<seq<Node>>)
    ensures r == Run(xmlPath, ctx, fuel, filename)
    ensures xmlPath.None? ==> r == Err(MissingConfig)
    ensures r.Ok? ==> xmlPath.Some? && IndexDocument in ctx.documents
  {
    if xmlPath.None? {
      return Err(MissingConfig);
    }
    if IndexDocument !in ctx.documents {
      return Err(MissingDocument(IndexDocument));
    }
    var index := ctx.documents[IndexDocument];
    var nodes := MatchingCompounds(index, filename);
    r := Renderer.RenderAll(ctx, fuel, nodes);
  }

  // ---- properties of the lookup ----

  /** An element is selected exactly when it is one of the searched elements
      and is a file entry for the name. */
  lemma {:induction false} FileEntriesMembers(cs: seq<Element>, filename: string, c: Element)
    ensures c in FileEntries(cs, filename) <==> c in cs && IsFileEntry(c, filename)
  {
    if cs != [] {
      FileEntriesMembers(cs[1..], filename, c);
      assert cs == [cs[0]] + cs[1..];
    }
  }

  /** Selecting from two runs of elements one after the other keeps their
      order: the selection of the first run, then that of the second. */
  lemma {:induction false} FileEntriesAppend(a: seq<Element>, b: seq<Element>, filename: string)
    ensures FileEntries(a + b, filename) == FileEntries(a, filename) + FileEntries(b, filename)
  {
    if a == [] {
      assert a + b == b;
    } else {
      assert (a + b)[0] == a[0];
      assert (a + b)[1..] == a[1..] + b;
      FileEntriesAppend(a[1..], b, filename);
    }
  }

  /** When no element is an entry for the name, nothing is selected. */
  lemma {:induction false} FileEntriesNone(cs: seq<Element>, filename: string)
    requires forall i :: 0 <= i < |cs| ==> !IsFileEntry(cs[i], filename)
    ensures FileEntries(cs, filename) == []
  {
    if cs != [] {
      assert !IsFileEntry(cs[0], filename);
      FileEntriesNone(cs[1..], filename);
    }
  }

  /** Every selected compound passes render_compound's kind check, so each one
      is rendered as the document its refid names. */
  lemma {:induction false} EntriesRenderAsDocuments(ctx: Transform.Context, fuel: nat, ms: seq<Element>, filename: string)
    requires forall i :: 0 <= i < |ms| ==> IsFileEntry(ms[i], filename)
    ensures Transform.RenderSeq(ctx, fuel, ms) == DocumentsOf(ctx, fuel, ms)
  {
    if ms != [] {
      assert IsFileEntry(ms[0], filename);
      DispatchCompound(ctx, fuel, ms[0]);
      EntriesRenderAsDocuments(ctx, fuel, ms[1..], filename);
    }
  }

  /** The items of the documents the compounds of `ms` name, in order. */
  function DocumentsOf(ctx: Transform.Context, fuel: nat, ms: seq<Element>): Result<seq<Node>>
  {
    if ms == [] then Ok([])
    else Then(Transform.RenderDocument(ctx, fuel, ms[0]), DocumentsOf(ctx, fuel, ms[1..]))
  }

  // ---- properties of the directive ----

  /** Without the configuration setting the directive fails before it looks
      at any document. */
  lemma MissingConfigFails(ctx: Transform.Context, ctx': Transform.Context, fuel: nat, fuel': nat,
                            filename: string, filename': string)
    ensures Run(None, ctx, fuel, filename) == Run(None, ctx', fuel', filename') == Err(MissingConfig)
  {
  }

  /** A directive whose name matches no file compound produces nothing and
      raises nothing. */
  lemma NoMatchIsEmpty(path: string, ctx: Transform.Context, fuel: nat, filename: string)
    requires IndexDocument in ctx.documents
    requires forall c :: c in DescendantsOrSelf(ctx.documents[IndexDocument]) ==> !IsFileEntry(c, filename)
    ensures Run(Some(path), ctx, fuel, filename) == Ok([])
  {
    var all := DescendantsOrSelf(ctx.documents[IndexDocument]);
    forall i | 0 <= i < |all| ensures !IsFileEntry(all[i], filename) {
      assert all[i] in all;
    }
    FileEntriesNone(all, filename);
  }

  /** With the setting and the index present, the directive's items are those
      of the documents of exactly the matching file compounds, in index order. */
  lemma RunRendersMatches(path: string, ctx: Transform.Context, fuel: nat, filename: string)
    requires IndexDocument in ctx.documents
    ensures Run(Some(path), ctx, fuel, filename) ==
            DocumentsOf(ctx, fuel, MatchingCompounds(ctx.documents[IndexDocument], filename))
  {
    var ms := MatchingCompounds(ctx.documents[IndexDocument], filename);
    EntriesRenderAsDocuments(ctx, fuel, ms, filename);
  }

  /** A single matching compound: the directive yields its document's items. */
  lemma SingleMatch(path: string, ctx: Transform.Context, fuel: nat, filename: string, m: Element)
    requires IndexDocument in ctx.documents
    requires MatchingCompounds(ctx.documents[IndexDocument], filename) == [m]
    ensures Run(Some(path), ctx, fuel, filename) == Transform.RenderDocument(ctx, fuel, m)
  {
    RunRendersMatches(path, ctx, fuel, filename);
    assert [m][1..] == [];
    ThenUnit(Transform.RenderDocument(ctx, fuel, m));
  }
}
