/** What an object tree holds, and its text. */
module XmlTree {
  import opened Options
  import opened Sequences
  import opened Attributes

  datatype Element = Element(name: string, attrs: Attrs, content: string, kids: seq<Element>)

  function AttrText(a: Attrs): (t: string) {
    if a == [] then "" else " " + a[0].key + "='" + a[0].val + "'" + AttrText(a[1..])
  }

  function Head(name: string, a: Attrs): (t: string) {
    "<" + name + AttrText(a)
  }

  function Tail(e: Element): (t: string) {
    e.content + "</" + e.name + ">"
  }

  predicate IsBare(e: Element) {
    e.kids == [] && e.content == ""
  }

  /** Opening tag, children in order, content, closing tag. */
  function Text(e: Element): (t: string)
    decreases e, 0
  {
    Head(e.name, e.attrs) + if IsBare(e) then "/>" else ">" + (Texts(e.kids) + Tail(e))
  }

  function Texts(es: seq<Element>): (t: string)
    decreases es
  {
    if es == [] then "" else Text(es[0]) + Texts(es[1..])
  }

  // ---------- setting all attributes of a list, one by one ----------

  function SetAll(acc: Attrs, a: Attrs): (r: Attrs)
    decreases |a|
  {
    if a == [] then acc else SetAll(SetAttr(acc, a[0].key, a[0].val), a[1..])
  }

  function Reversed(a: Attrs): (r: Attrs)
    ensures |r| == |a|
  {
    if a == [] then [] else Reversed(a[1..]) + [a[0]]
  }

  lemma {:induction false} ReversedAt(a: Attrs, i: nat)
    requires i < |a|
    ensures Reversed(a)[i] == a[|a| - 1 - i]
  {
    if i < |a| - 1 {
      ReversedAt(a[1..], i);
    }
  }

  lemma ReversedTwice(a: Attrs)
    ensures Reversed(Reversed(a)) == a
  {
    var r := Reversed(a);
    forall i | 0 <= i < |a| ensures Reversed(r)[i] == a[i] {
      ReversedAt(r, i);
      ReversedAt(a, |a| - 1 - i);
    }
  }

  lemma ReversedDistinct(a: Attrs)
    requires DistinctKeys(a)
    ensures DistinctKeys(Reversed(a))
  {
    forall i, j | 0 <= i < j < |a| ensures Reversed(a)[i].key != Reversed(a)[j].key {
      ReversedAt(a, i);
      ReversedAt(a, j);
    }
  }

  ghost predicate KeysApart(a: Attrs, b: Attrs) {
    forall i, j :: 0 <= i < |a| && 0 <= j < |b| ==> a[i].key != b[j].key
  }

  lemma MoveOver(acc: Attrs, a: Attrs)
    requires DistinctKeys(a) && KeysApart(a, acc) && a != []
    ensures DistinctKeys(a[1..]) && KeysApart(a[1..], [a[0]] + acc) && SetAttr(acc, a[0].key, a[0].val) == [a[0]] + acc
  {
    LookupIs(acc, a[0].key);
    forall i, j | 0 <= i < |a| - 1 && 0 <= j < |acc| + 1 ensures a[1..][i].key != ([a[0]] + acc)[j].key {
      if j > 0 {
        assert a[1..][i].key != acc[j - 1].key;
      }
    }
  }

  /** New attributes go to the front, so that the list comes out reversed. */
  lemma {:induction false} SetAllReverses(acc: Attrs, a: Attrs)
    requires DistinctKeys(a) && KeysApart(a, acc)
    ensures SetAll(acc, a) == Reversed(a) + acc
    decreases |a|
  {
    hide DistinctKeys, KeysApart, SetAttr;
    if a == [] {
      assert [] + acc == acc;
    } else {
      MoveOver(acc, a);
      SetAllReverses([a[0]] + acc, a[1..]);
      Grouped(Reversed(a[1..]), [a[0]], acc);
    }
  }

  lemma {:induction false} MapOfDistinct(a: Attrs, i: nat)
    requires DistinctKeys(a) && i < |a|
    ensures Lookup(a, a[i].key) == Some(a[i].val)
  {
    if i > 0 {
      MapOfDistinct(a[1..], i - 1);
    }
  }

  /** Reversing a list with distinct keys keeps its bindings. */
  lemma ReversedSameMap(a: Attrs)
    requires DistinctKeys(a)
    ensures AsMap(Reversed(a)) == AsMap(a)
  {
    var r := Reversed(a);
    ReversedDistinct(a);
    forall k ensures Lookup(r, k) == Lookup(a, k) {
      LookupIs(a, k);
      LookupIs(r, k);
      if i :| 0 <= i < |a| && a[i].key == k {
        ReversedAt(a, |a| - 1 - i);
        MapOfDistinct(a, i);
        MapOfDistinct(r, |a| - 1 - i);
      } else if i :| 0 <= i < |r| && r[i].key == k {
        ReversedAt(a, i);
      }
    }
  }

  // ---------- the value of a copy ----------

  /** What x_object_full_copy makes of a tree. */
  function Copied(e: Element): (c: Element) {
    Element(e.name, SetAll([], e.attrs), e.content, CopiedAll(e.kids))
  }

  function CopiedAll(es: seq<Element>): (cs: seq<Element>)
    ensures |cs| == |es| && forall i :: 0 <= i < |es| ==> cs[i] == Copied(es[i])
  {
    if es == [] then [] else [Copied(es[0])] + CopiedAll(es[1..])
  }

  /** Setting attributes keeps the keys of an object distinct. */
  ghost predicate Keyed(e: Element) {
    DistinctKeys(e.attrs) && forall i :: 0 <= i < |e.kids| ==> Keyed(e.kids[i])
  }

  /** A copy has the same structure, and every attribute list the other way
      round, which keeps its bindings. */
  ghost predicate Mirrors(e: Element, c: Element) {
    && c.name == e.name && c.content == e.content && c.attrs == Reversed(e.attrs) && AsMap(c.attrs) == AsMap(e.attrs)
    && |c.kids| == |e.kids| && forall i :: 0 <= i < |e.kids| ==> Mirrors(e.kids[i], c.kids[i])
  }

  lemma {:induction false} CopyMirrors(e: Element)
    requires Keyed(e)
    ensures Mirrors(e, Copied(e)) && Keyed(Copied(e))
  {
    SetAllReverses([], e.attrs);
    ReversedSameMap(e.attrs);
    ReversedDistinct(e.attrs);
    forall i | 0 <= i < |e.kids| ensures Mirrors(e.kids[i], Copied(e.kids[i])) && Keyed(Copied(e.kids[i])) {
      CopyMirrors(e.kids[i]);
    }
  }

  /** A copy of a copy is the original again. */
  lemma {:induction false} CopyTwice(e: Element)
    requires Keyed(e)
    ensures Copied(Copied(e)) == e && Text(Copied(Copied(e))) == Text(e)
  {
    CopyMirrors(e);
    SetAllReverses([], Reversed(e.attrs));
    ReversedTwice(e.attrs);
    forall i | 0 <= i < |e.kids| ensures Copied(Copied(e.kids[i])) == e.kids[i] {
      CopyTwice(e.kids[i]);
    }
  }

  predicate FewAttrs(e: Element) {
    |e.attrs| <= 1 && forall i :: 0 <= i < |e.kids| ==> FewAttrs(e.kids[i])
  }

  /** A single copy is the same as the original just if no element has two attributes. */
  lemma {:induction false} CopyOnce(e: Element)
    requires Keyed(e)
    ensures Copied(e) == e <==> FewAttrs(e)
  {
    CopyMirrors(e);
    if |e.attrs| > 1 {
      ReversedAt(e.attrs, 0);
    }
    forall i | 0 <= i < |e.kids| ensures Copied(e.kids[i]) == e.kids[i] <==> FewAttrs(e.kids[i]) {
      CopyOnce(e.kids[i]);
    }
  }

  /** An element with two attributes is enough: its copy has them the other way round. */
  lemma TwoAttributesReversed()
    ensures var e := Element("a", [Attr("k", "v"), Attr("l", "w")], "", []);
      Copied(e) == Element("a", [Attr("l", "w"), Attr("k", "v")], "", []) && Text(Copied(e)) != Text(e)
  {
    var a, b := [Attr("k", "v"), Attr("l", "w")], [Attr("l", "w"), Attr("k", "v")];
    var e, c := Element("a", a, "", []), Element("a", b, "", []);
    assert SetAll([Attr("k", "v")], a[1..]) == b by {
      assert a[1..][1..] == [];
    }
    assert Copied(e).attrs == b;
    assert Copied(e).kids == [];
    assert AttrText(a)[1] == 'k' && AttrText(b)[1] == 'l';
    assert Text(e)[3] == 'k' && Text(c)[3] == 'l';
  }
}
