/** The parsed Doxygen XML, as far as the transformer looks at it.
    An element carries its tag, its attributes, the text before its first
    child (`text`), its child elements, and the text after its own end tag
    (`tail`), as an lxml element does.  An absent text run is the empty
    string, since a parsed document never holds an empty text node. */
module Xml {

  datatype Element = Element(
    tag: string,
    attrs: map<string, string>,
    text: string,
    children: seq<Element>,
    tail: string)

  datatype Option<T> = None | Some(value: T)

  /** `node.get(name)`: the attribute's value, or None when it is absent. */
  function Attr(e: Element, name: string): (r: Option<string>)
    ensures r.Some? <==> name in e.attrs
    ensures r.Some? ==> r.value == e.attrs[name]
  {
    if name in e.attrs then Some(e.attrs[name]) else None
  }

  /** The text nodes `text()` selects directly under an element, in document
      order: its leading text, then the tail of each child, skipping absent ones. */
  function TextNodes(e: Element): (r: seq<string>)
    ensures forall i :: 0 <= i < |r| ==> r[i] != ""
    ensures |r| <= 1 + |e.children|
  {
    (if e.text == "" then [] else [e.text]) + Tails(e.children)
  }

  function Tails(cs: seq<Element>): (r: seq<string>)
    ensures forall i :: 0 <= i < |r| ==> r[i] != ""
    ensures |r| <= |cs|
  {
    if cs == [] then []
    else (if cs[0].tail == "" then [] else [cs[0].tail]) + Tails(cs[1..])
  }

  /** The child elements with the given tag, in document order (`./tag`). */
  function ChildrenTagged(cs: seq<Element>, tag: string): (r: seq<Element>)
    ensures |r| <= |cs|
    ensures forall i :: 0 <= i < |r| ==> r[i].tag == tag
  {
    if cs == [] then []
    else (if cs[0].tag == tag then [cs[0]] else []) + ChildrenTagged(cs[1..], tag)
  }

  /** `./tag` selects exactly the children tagged `tag`. */
  lemma {:induction false} ChildrenTaggedMembers(cs: seq<Element>, tag: string, c: Element)
    ensures c in ChildrenTagged(cs, tag) <==> c in cs && c.tag == tag
  {
    if cs != [] {
      ChildrenTaggedMembers(cs[1..], tag, c);
      assert cs == [cs[0]] + cs[1..];
    }
  }

  lemma {:induction false} ChildrenTaggedAppend(a: seq<Element>, b: seq<Element>, tag: string)
    ensures ChildrenTagged(a + b, tag) == ChildrenTagged(a, tag) + ChildrenTagged(b, tag)
  {
    if a == [] {
      assert a + b == b;
    } else {
      var ab := a + b;
      assert ab[0] == a[0] && ab[1..] == a[1..] + b;
      ChildrenTaggedAppend(a[1..], b, tag);
      var head: seq<Element> := if a[0].tag == tag then [a[0]] else [];
      var x, y := ChildrenTagged(a[1..], tag), ChildrenTagged(b, tag);
      assert ChildrenTagged(ab, tag) == head + (x + y);
      assert ChildrenTagged(a, tag) == head + x;
      ConcatAssociative(head, x, y);
    }
  }

  /** A child with another tag can be added anywhere without changing what
      `./tag` selects. */
  lemma ChildrenTaggedInsert(cs: seq<Element>, i: nat, c: Element, tag: string)
    requires i <= |cs| && c.tag != tag
    ensures ChildrenTagged(cs[..i] + [c] + cs[i..], tag) == ChildrenTagged(cs, tag)
  {
    var a, b := cs[..i], cs[i..];
    assert ChildrenTagged([c], tag) == [] by {
      assert [c][1..] == [];
    }
    ChildrenTaggedAppend(a, [c], tag);
    assert ChildrenTagged(a + [c], tag) == ChildrenTagged(a, tag) + [];
    ChildrenTaggedAppend(a + [c], b, tag);
    ChildrenTaggedAppend(a, b, tag);
    assert a + b == cs;
  }

  /** `./tag/text()`: the text nodes of every child tagged `tag`, in document order. */
  function ChildTexts(e: Element, tag: string): seq<string>
  {
    TextsOf(ChildrenTagged(e.children, tag))
  }

  function TextsOf(cs: seq<Element>): seq<string>
  {
    if cs == [] then [] else TextNodes(cs[0]) + TextsOf(cs[1..])
  }

  /** `./outer/para/text()`: the text nodes of every `para` child of every
      `outer` child, in document order. */
  function ParaTexts(e: Element, outer: string): seq<string>
  {
    ParaTextsOf(ChildrenTagged(e.children, outer))
  }

  function ParaTextsOf(cs: seq<Element>): seq<string>
  {
    if cs == [] then [] else ChildTexts(cs[0], "para") + ParaTextsOf(cs[1..])
  }

  /** `./tag/text()[0]`: the first text node under a child tagged `tag`, or
      None where the source's index would raise. */
  function FirstText(e: Element, tag: string): (r: Option<string>)
    ensures r.None? <==> ChildTexts(e, tag) == []
    ensures r.Some? ==> r.value == ChildTexts(e, tag)[0] && r.value != ""
  {
    var ts := ChildTexts(e, tag);
    TextsOfNonEmpty(ChildrenTagged(e.children, tag));
    if ts == [] then None else Some(ts[0])
  }

  lemma {:induction false} TextsOfNonEmpty(cs: seq<Element>)
    ensures forall i :: 0 <= i < |TextsOf(cs)| ==> TextsOf(cs)[i] != ""
  {
    if cs != [] {
      TextsOfNonEmpty(cs[1..]);
      var a, b := TextNodes(cs[0]), TextsOf(cs[1..]);
      assert TextsOf(cs) == a + b;
      forall i | 0 <= i < |a + b| ensures (a + b)[i] != "" {
        if i >= |a| { assert (a + b)[i] == b[i - |a|]; }
      }
    }
  }

  /** The XPath string-value of an element: all text inside it, in document order. */
  function StringValue(e: Element): string
  {
    e.text + StringValueOf(e.children)
  }

  function StringValueOf(cs: seq<Element>): string
  {
    if cs == [] then "" else StringValue(cs[0]) + cs[0].tail + StringValueOf(cs[1..])
  }

  /** The element and every element inside it, in document order
      (the elements a descendant-or-self search visits from `e`). */
  function DescendantsOrSelf(e: Element): (r: seq<Element>)
    ensures |r| >= 1 && r[0] == e
  {
    [e] + DescendantsOf(e.children)
  }

  function DescendantsOf(cs: seq<Element>): seq<Element>
  {
    if cs == [] then [] else DescendantsOrSelf(cs[0]) + DescendantsOf(cs[1..])
  }

  /** Size measures: every element counts one more than all that is inside it. */
  function Size(e: Element): (n: nat)
    ensures n > SeqSize(e.children)
  {
    1 + SeqSize(e.children)
  }

  function SeqSize(cs: seq<Element>): nat
  {
    if cs == [] then 0 else 1 + Size(cs[0]) + SeqSize(cs[1..])
  }

  lemma {:induction false} ChildSmaller(cs: seq<Element>, i: nat)
    requires i < |cs|
    ensures Size(cs[i]) < SeqSize(cs)
  {
    if i > 0 {
      ChildSmaller(cs[1..], i - 1);
      assert cs[1..][i - 1] == cs[i];
    }
  }

  /** The children whose tag is not in `skip`, in order: the test the source
      applies with `if child.tag in [...]: continue` and the location filter of sectiondef. */
  function Exclude(cs: seq<Element>, skip: set<string>): (r: seq<Element>)
    ensures |r| <= |cs|
  {
    if cs == [] then []
    else (if cs[0].tag in skip then [] else [cs[0]]) + Exclude(cs[1..], skip)
  }

  lemma {:induction false} ExcludeSmaller(cs: seq<Element>, skip: set<string>)
    ensures SeqSize(Exclude(cs, skip)) <= SeqSize(cs)
  {
    if cs != [] {
      ExcludeSmaller(cs[1..], skip);
      var rest := Exclude(cs[1..], skip);
      if cs[0].tag !in skip {
        assert Exclude(cs, skip) == [cs[0]] + rest;
        SeqSizeCons(cs[0], rest);
      } else {
        assert Exclude(cs, skip) == [] + rest == rest;
      }
    }
  }

  lemma {:induction false} ExcludeKeeps(cs: seq<Element>, skip: set<string>)
    ensures forall i :: 0 <= i < |Exclude(cs, skip)| ==> Exclude(cs, skip)[i].tag !in skip
  {
    if cs != [] {
      ExcludeKeeps(cs[1..], skip);
      var head: seq<Element> := if cs[0].tag in skip then [] else [cs[0]];
      var rest := Exclude(cs[1..], skip);
      forall i | 0 <= i < |head + rest| ensures (head + rest)[i].tag !in skip {
        if i >= |head| { assert (head + rest)[i] == rest[i - |head|]; }
      }
    }
  }

  lemma SeqSizeCons(c: Element, rest: seq<Element>)
    ensures SeqSize([c] + rest) == 1 + Size(c) + SeqSize(rest)
  {
    assert ([c] + rest)[1..] == rest;
  }

  lemma {:induction false} ExcludeAppend(a: seq<Element>, b: seq<Element>, skip: set<string>)
    ensures Exclude(a + b, skip) == Exclude(a, skip) + Exclude(b, skip)
  {
    if a == [] {
      assert a + b == b;
    } else {
      var ab := a + b;
      assert ab[0] == a[0] && ab[1..] == a[1..] + b;
      ExcludeAppend(a[1..], b, skip);
      var head: seq<Element> := if a[0].tag in skip then [] else [a[0]];
      var x, y := Exclude(a[1..], skip), Exclude(b, skip);
      assert Exclude(ab, skip) == head + (x + y);
      assert Exclude(a, skip) == head + x;
      ConcatAssociative(head, x, y);
    }
  }

  lemma ConcatAssociative<T>(a: seq<T>, b: seq<T>, c: seq<T>)
    ensures a + (b + c) == (a + b) + c
  {
  }

  /** A child whose tag is skipped can be added anywhere without changing
      which children are kept. */
  lemma ExcludeInsertSkipped(cs: seq<Element>, i: nat, c: Element, skip: set<string>)
    requires i <= |cs| && c.tag in skip
    ensures Exclude(cs[..i] + [c] + cs[i..], skip) == Exclude(cs, skip)
  {
    ExcludeInsert(cs[..i], cs[i..], c, skip);
    assert cs[..i] + cs[i..] == cs;
  }

  lemma ExcludeInsert(a: seq<Element>, b: seq<Element>, c: Element, skip: set<string>)
    requires c.tag in skip
    ensures Exclude(a + [c] + b, skip) == Exclude(a + b, skip)
  {
    var ea, eb := Exclude(a, skip), Exclude(b, skip);
    assert Exclude([c], skip) == [] by {
      assert [c][1..] == [];
    }
    ExcludeAppend(a, [c], skip);
    assert Exclude(a + [c], skip) == ea by {
      assert ea + [] == ea;
    }
    ExcludeAppend(a + [c], b, skip);
    ExcludeAppend(a, b, skip);
  }

  /** Excluding from a growing prefix adds the next child exactly when it is kept. */
  lemma ExcludeSnoc(cs: seq<Element>, i: nat, skip: set<string>)
    requires i < |cs|
    ensures Exclude(cs[..i + 1], skip) ==
            Exclude(cs[..i], skip) + (if cs[i].tag in skip then [] else [cs[i]])
  {
    assert cs[..i + 1] == cs[..i] + [cs[i]];
    ExcludeAppend(cs[..i], [cs[i]], skip);
    assert Exclude([cs[i]], skip) == (if cs[i].tag in skip then [] else [cs[i]]) by {
      assert [cs[i]][1..] == [];
    }
  }
}
