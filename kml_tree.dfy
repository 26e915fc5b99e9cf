/**
  An already-parsed KML (XML) document as a tree of elements, and the
  `getElementsByTagName` queries the style engine makes on it. The XML text
  parser itself is not part of this model.
*/
module KmlTree {
  import opened Wrappers

  /**
    One XML element: its tag name, its `id` attribute when it has one, its
    child elements in document order, and its `textContent`.
  */
  datatype Element = Element(tag: string, id: Option<string>, children: seq<Element>, text: string)

  /** An element followed by all its descendants, in document order. */
  function Preorder(e: Element): (r: seq<Element>)
    ensures |r| >= 1 && r[0] == e
    decreases e, 1
  {
    [e] + PreorderAll(e.children)
  }

  /** The preorders of a run of sibling elements, one after another. */
  function PreorderAll(es: seq<Element>): seq<Element>
    decreases es, 0
  {
    if |es| == 0 then [] else Preorder(es[0]) + PreorderAll(es[1..])
  }

  /** What `e.getElementsByTagName` searches: the descendants of `e`, excluding `e`. */
  function Descendants(e: Element): seq<Element> {
    PreorderAll(e.children)
  }

  /** The elements of `es` whose tag is `tag`, order kept (a live `HTMLCollection`, read once). */
  function WithTag(es: seq<Element>, tag: string): (r: seq<Element>)
    ensures |r| <= |es|
    ensures forall i :: 0 <= i < |r| ==> r[i].tag == tag && r[i] in es
    ensures forall i :: 0 <= i < |es| && es[i].tag == tag ==> es[i] in r
  {
    if |es| == 0 then []
    else if es[0].tag == tag then [es[0]] + WithTag(es[1..], tag)
    else WithTag(es[1..], tag)
  }

  /** `getElementsByTagName(tag)[0]` over the candidates `es`: the first one with that tag. */
  function FirstWithTag(es: seq<Element>, tag: string): (r: Option<Element>)
    ensures r.None? <==> forall i :: 0 <= i < |es| ==> es[i].tag != tag
    ensures r.Some? ==> exists k :: 0 <= k < |es| && es[k] == r.value && r.value.tag == tag
                                    && forall j :: 0 <= j < k ==> es[j].tag != tag
  {
    if |es| == 0 then None
    else if es[0].tag == tag then Some(es[0])
    else
      var r := FirstWithTag(es[1..], tag);
      assert r.Some? ==> exists k :: 1 <= k < |es| && es[k] == r.value && forall j :: 0 <= j < k ==> es[j].tag != tag by {
        if r.Some? {
          var k' :| 0 <= k' < |es[1..]| && es[1..][k'] == r.value && r.value.tag == tag
                    && forall j :: 0 <= j < k' ==> es[1..][j].tag != tag;
          assert es[k' + 1] == r.value;
          assert forall j :: 0 <= j < k' + 1 ==> es[j].tag != tag by {
            forall j | 0 <= j < k' + 1 ensures es[j].tag != tag {
              if j > 0 { assert es[j] == es[1..][j - 1]; }
            }
          }
        }
      }
      r
  }

  /** The first match is the head of the list of all matches. */
  lemma {:induction false} FirstIsHeadOfAll(es: seq<Element>, tag: string)
    ensures FirstWithTag(es, tag) == if |WithTag(es, tag)| == 0 then None else Some(WithTag(es, tag)[0])
  {
    if |es| > 0 && es[0].tag != tag {
      FirstIsHeadOfAll(es[1..], tag);
    }
  }

  /** The first element with a tag is the one at the first position that has it. */
  lemma FirstWithTagAt(es: seq<Element>, tag: string, k: nat)
    requires k < |es| && es[k].tag == tag
    requires forall j :: 0 <= j < k ==> es[j].tag != tag
    ensures FirstWithTag(es, tag) == Some(es[k])
  {
    var r := FirstWithTag(es, tag);
    var k' :| 0 <= k' < |es| && es[k'] == r.value && r.value.tag == tag && forall j :: 0 <= j < k' ==> es[j].tag != tag;
    assert !(k' < k) && !(k < k');
  }

  lemma PreorderOfLeaf(e: Element)
    requires e.children == []
    ensures Preorder(e) == [e]
  {
    assert [e] + PreorderAll([]) == [e];
  }

  lemma PreorderAllOne(e: Element)
    ensures PreorderAll([e]) == Preorder(e)
  {
    assert [e][1..] == [];
    assert Preorder(e) + PreorderAll([]) == Preorder(e);
  }

  lemma PreorderAllCons(e: Element, rest: seq<Element>)
    ensures PreorderAll([e] + rest) == Preorder(e) + PreorderAll(rest)
  {
    assert ([e] + rest)[1..] == rest;
  }

  /** The first match in a list is its head when the head matches, else the first match in the rest. */
  lemma FirstWithTagCons(e: Element, rest: seq<Element>, tag: string)
    ensures FirstWithTag([e] + rest, tag) == if e.tag == tag then Some(e) else FirstWithTag(rest, tag)
  {
    assert ([e] + rest)[1..] == rest;
  }

  /** The first match in `a + b` is the first in `a`, or failing that the first in `b`. */
  lemma {:induction false} FirstWithTagAppend(a: seq<Element>, b: seq<Element>, tag: string)
    ensures FirstWithTag(a + b, tag) == if FirstWithTag(a, tag).Some? then FirstWithTag(a, tag) else FirstWithTag(b, tag)
  {
    if |a| == 0 {
      assert a + b == b;
    } else {
      assert a == [a[0]] + a[1..];
      assert a + b == [a[0]] + (a[1..] + b);
      FirstWithTagCons(a[0], a[1..], tag);
      FirstWithTagCons(a[0], a[1..] + b, tag);
      FirstWithTagAppend(a[1..], b, tag);
    }
  }

  /**
    Searching below a run of siblings: the first sibling when it matches,
    else the first match below it, else the search goes on in the rest.
  */
  lemma FirstBelowSiblings(a: Element, rest: seq<Element>, tag: string)
    ensures FirstWithTag(PreorderAll([a] + rest), tag) ==
              if a.tag == tag then Some(a)
              else if FirstWithTag(Descendants(a), tag).Some? then FirstWithTag(Descendants(a), tag)
              else FirstWithTag(PreorderAll(rest), tag)
  {
    PreorderAllCons(a, rest);
    FirstWithTagAppend(Preorder(a), PreorderAll(rest), tag);
    FirstWithTagCons(a, Descendants(a), tag);
  }

  /** A run of leaves is its own preorder. */
  lemma {:induction false} PreorderOfLeaves(es: seq<Element>)
    requires forall k :: 0 <= k < |es| ==> es[k].children == []
    ensures PreorderAll(es) == es
  {
    if |es| > 0 {
      PreorderOfLeaf(es[0]);
      PreorderOfLeaves(es[1..]);
      assert es == [es[0]] + es[1..];
    }
  }

  /** The search below an element with one child. */
  lemma FirstOfOne(e: Element, a: Element, tag: string)
    requires e.children == [a]
    ensures FirstWithTag(Descendants(e), tag) == if a.tag == tag then Some(a) else FirstWithTag(Descendants(a), tag)
  {
    assert [a] == [a] + [];
    FirstBelowSiblings(a, [], tag);
  }

  /** The search below an element with two children. */
  lemma FirstOfTwo(e: Element, a: Element, b: Element, tag: string)
    requires e.children == [a, b]
    ensures FirstWithTag(Descendants(e), tag) ==
              if a.tag == tag then Some(a)
              else if FirstWithTag(Descendants(a), tag).Some? then FirstWithTag(Descendants(a), tag)
              else if b.tag == tag then Some(b)
              else FirstWithTag(Descendants(b), tag)
  {
    assert [a, b] == [a] + [b];
    assert [b] == [b] + [];
    FirstBelowSiblings(a, [b], tag);
    FirstBelowSiblings(b, [], tag);
  }

  /** `e.getElementsByTagName(tag)[0]`: the first descendant of `e` with that tag, if any. */
  function FirstByTag(e: Element, tag: string): Option<Element> {
    FirstWithTag(Descendants(e), tag)
  }

  /** `doc.getElementsByTagName(tag)` on a document whose root element is `root`
      (the root itself is a candidate). */
  function DocumentElementsByTag(root: Element, tag: string): seq<Element> {
    WithTag(Preorder(root), tag)
  }
}
