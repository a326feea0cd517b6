/** Objects, linked into trees through their parent, their first child and
    their next sibling. */
module Objects {
  import opened Sequences
  import opened Options
  import opened Attributes
  import opened XmlTree

  class XObject {
    var name: string
    var attrs: Attrs
    var content: string
    var parent: XObject?
    var sibling: XObject?
    var sons: XObject?
    var childCount: int

    constructor (name: string)
      ensures this.name == name && attrs == [] && content == "" && childCount == 0
      ensures parent == null && sibling == null && sons == null
    {
      this.name, attrs, content, childCount := name, [], "", 0;
      parent, sibling, sons := null, null, null;
    }
  }

  /** A child list, seen from its parent. */
  ghost predicate Linked(p: XObject, kids: seq<XObject>)
    reads p`sons, p`childCount, kids`parent, kids`sibling
  {
    && p.sons == At(kids, 0) && p.childCount == |kids|
    && (forall i :: 0 <= i < |kids| ==> kids[i].parent == p)
    && (forall i, j :: 0 <= i < j < |kids| && j == i + 1 ==> kids[i].sibling == kids[j])
    && (kids != [] ==> kids[|kids| - 1].sibling == null)
  }

  function At(kids: seq<XObject>, i: nat): (x: XObject?) {
    if i < |kids| then kids[i] else null
  }

  /** The objects of a tree, by position. */
  datatype Shape = Shape(obj: XObject, kids: seq<Shape>)

  function Tops(ss: seq<Shape>): (r: seq<XObject>)
    ensures |r| == |ss| && forall i :: 0 <= i < |ss| ==> r[i] == ss[i].obj
  {
    seq(|ss|, i requires 0 <= i < |ss| => ss[i].obj)
  }

  /** The tree s is made of objects of S and holds e.  Where its root hangs does
      not matter. */
  ghost predicate Holds(s: Shape, e: Element, S: set<XObject>)
    reads s.obj`name, s.obj`attrs, s.obj`content, s.obj`sons, s.obj`childCount, S - {s.obj}
    decreases s
  {
    && s.obj in S && s.obj.name == e.name && s.obj.attrs == e.attrs && s.obj.content == e.content
    && |s.kids| == |e.kids|
    && (forall i :: 0 <= i < |s.kids| ==> s.kids[i].obj in S - {s.obj})
    && Linked(s.obj, Tops(s.kids))
    && forall i :: 0 <= i < |s.kids| ==> Holds(s.kids[i], e.kids[i], S - {s.obj})
  }

  lemma {:induction false} HoldsInMore(s: Shape, e: Element, S: set<XObject>, more: set<XObject>)
    requires Holds(s, e, S) && S <= more
    ensures Holds(s, e, more)
    decreases s
  {
    forall i | 0 <= i < |s.kids| ensures Holds(s.kids[i], e.kids[i], more - {s.obj}) {
      HoldsInMore(s.kids[i], e.kids[i], S - {s.obj}, more - {s.obj});
    }
  }

  /** The objects of a tree in document order. */
  function Preorder(s: Shape): (r: seq<XObject>)
    decreases s, 0
  {
    [s.obj] + Preorders(s.kids)
  }

  function Preorders(ss: seq<Shape>): (r: seq<XObject>)
    decreases ss
  {
    if ss == [] then [] else Preorder(ss[0]) + Preorders(ss[1..])
  }

  // ---------- no object is met twice ----------

  /** The objects of ss[k], at their place among those of ss. */
  ghost predicate PlacedAt(ss: seq<Shape>, k: nat, base: nat) {
    && k < |ss| && base + |Preorder(ss[k])| <= |Preorders(ss)|
    && forall q :: 0 <= q < |Preorder(ss[k])| ==> Preorders(ss)[base + q] == Preorder(ss[k])[q]
  }

  lemma {:induction false} Locate(ss: seq<Shape>, n: nat) returns (k: nat, base: nat)
    requires n < |Preorders(ss)|
    ensures PlacedAt(ss, k, base) && base <= n < base + |Preorder(ss[k])|
    ensures base == |Preorders(ss[..k])|
    decreases ss
  {
    var first := |Preorder(ss[0])|;
    if n < first {
      k, base := 0, 0;
    } else {
      k, base := Locate(ss[1..], n - first);
      assert ss[..k + 1][1..] == ss[1..][..k];
      k, base := k + 1, base + first;
    }
  }

  /** The objects say what the tree holds at its root. */
  lemma AtRoot(s: Shape, e: Element, S: set<XObject>)
    requires Holds(s, e, S)
    ensures s.obj.name == e.name && s.obj.attrs == e.attrs && s.obj.content == e.content && |s.kids| == |e.kids|
    ensures s.obj.sons == if s.kids == [] then null else s.kids[0].obj
  {
  }

  lemma KidHolds(s: Shape, e: Element, S: set<XObject>, k: nat)
    requires Holds(s, e, S) && k < |s.kids|
    ensures |s.kids| == |e.kids| && Holds(s.kids[k], e.kids[k], S - {s.obj})
    ensures s.kids[k].obj in S - {s.obj} && s.kids[k].obj.parent == s.obj && s.kids[k].obj == Tops(s.kids)[k]
    ensures s.kids[k].obj.sibling == At(Tops(s.kids), k + 1)
  {
  }

  lemma SiblingsLinked(s: Shape, e: Element, S: set<XObject>)
    requires Holds(s, e, S)
    ensures Linked(s.obj, Tops(s.kids)) && |s.kids| == |e.kids|
  {
  }

  /** Every object but the root is among those of some child. */
  lemma LocateKid(s: Shape, n: nat) returns (k: nat, q: nat)
    requires 0 < n < |Preorder(s)|
    ensures k < |s.kids| && q < |Preorder(s.kids[k])| && n == 1 + |Preorders(s.kids[..k])| + q
    ensures forall x :: 0 <= x < |Preorder(s.kids[k])| ==>
                          1 + |Preorders(s.kids[..k])| + x < |Preorder(s)| && KidAt(s, k, x) == Preorder(s.kids[k])[x]
    ensures q == 0 ==> Preorder(s)[n] == s.kids[k].obj
  {
    var base;
    k, base := Locate(s.kids, n - 1);
    q := n - 1 - base;
    assert Preorder(s.kids[k])[0] == s.kids[k].obj;
    assert Preorders(s.kids)[base + q] == Preorder(s.kids[k])[q];
  }

  ghost function KidAt(s: Shape, k: nat, x: nat): (o: XObject)
    requires k < |s.kids| && 1 + |Preorders(s.kids[..k])| + x < |Preorder(s)|
  {
    Preorder(s)[1 + |Preorders(s.kids[..k])| + x]
  }

  lemma RootHolds(s: Shape, e: Element, S: set<XObject>)
    requires Holds(s, e, S)
    ensures s.obj in S && Preorder(s) != [] && Preorder(s)[0] == s.obj
  {
  }

  lemma {:induction false} StaysInside(s: Shape, e: Element, S: set<XObject>, n: nat)
    requires Holds(s, e, S) && n < |Preorder(s)|
    ensures Preorder(s)[n] in S && Preorder(s)[0] == s.obj && (n > 0 ==> Preorder(s)[n] != s.obj)
    decreases s
  {
    hide Holds, Preorders, Preorder;
    RootHolds(s, e, S);
    if n > 0 {
      var k, q := LocateKid(s, n);
      KidHolds(s, e, S, k);
      StaysInside(s.kids[k], e.kids[k], S - {s.obj}, q);
      assert KidAt(s, k, q) == Preorder(s)[n];
    }
  }

  lemma {:induction false} ParentEarlier(s: Shape, e: Element, S: set<XObject>, n: nat) returns (m: nat)
    requires Holds(s, e, S) && 0 < n < |Preorder(s)|
    ensures m < n && Preorder(s)[m] == Preorder(s)[n].parent
    decreases s
  {
    hide Holds, Preorders;
    var k, q := LocateKid(s, n);
    KidHolds(s, e, S, k);
    assert KidAt(s, k, q) == Preorder(s)[n];
    if q == 0 {
      m := 0;
    } else {
      hide Preorder;
      var p := ParentEarlier(s.kids[k], e.kids[k], S - {s.obj}, q);
      assert KidAt(s, k, p) == Preorder(s.kids[k])[p];
      m := 1 + |Preorders(s.kids[..k])| + p;
    }
  }

  /** Two children are two objects. */
  lemma {:induction false} KidsDiffer(p: XObject, kids: seq<XObject>, i: nat, j: nat)
    requires Linked(p, kids) && i < j < |kids|
    ensures kids[i] != kids[j]
    decreases |kids| - j
  {
    if kids[i] == kids[j] {
      assert kids[i].sibling == kids[i + 1];
      if j + 1 < |kids| {
        KidsDiffer(p, kids, i + 1, j + 1);
      }
    }
  }

  /** The trees of two children have nothing in common. */
  lemma {:induction false} KidsApart(s: Shape, e: Element, S: set<XObject>, i: nat, j: nat, n: nat, m: nat)
    requires Holds(s, e, S) && i < |s.kids| && j < |s.kids| && i != j
    requires n < |Preorder(s.kids[i])| && m < |Preorder(s.kids[j])|
    ensures Preorder(s.kids[i])[n] != Preorder(s.kids[j])[m]
    decreases n
  {
    hide Holds;
    KidHolds(s, e, S, i);
    KidHolds(s, e, S, j);
    var a, b := s.kids[i], s.kids[j];
    var x, y := Preorder(a)[n], Preorder(b)[m];
    if x == y {
      if n == 0 && m == 0 {
        SiblingsLinked(s, e, S);
        KidsDiffer(s.obj, Tops(s.kids), if i < j then i else j, if i < j then j else i);
      } else if n == 0 {
        var p := ParentEarlier(b, e.kids[j], S - {s.obj}, m);
        StaysInside(b, e.kids[j], S - {s.obj}, p);
      } else {
        var p := ParentEarlier(a, e.kids[i], S - {s.obj}, n);
        if m == 0 {
          StaysInside(a, e.kids[i], S - {s.obj}, p);
        } else {
          var q := ParentEarlier(b, e.kids[j], S - {s.obj}, m);
          KidsApart(s, e, S, i, j, p, q);
        }
      }
    }
  }

  /** Every object has one place in its tree. */
  lemma {:induction false} PreorderDistinct(s: Shape, e: Element, S: set<XObject>, n: nat, m: nat)
    requires Holds(s, e, S) && n < m < |Preorder(s)|
    ensures Preorder(s)[n] != Preorder(s)[m]
    decreases s
  {
    hide Preorders, Holds, Preorder;
    if n == 0 {
      StaysInside(s, e, S, m);
    } else {
      var i, a := LocateKid(s, n);
      var j, b := LocateKid(s, m);
      KidHolds(s, e, S, i);
      assert KidAt(s, i, a) == Preorder(s.kids[i])[a] && KidAt(s, j, b) == Preorder(s.kids[j])[b];
      if i == j {
        PreorderDistinct(s.kids[i], e.kids[i], S - {s.obj}, a, b);
      } else {
        KidsApart(s, e, S, i, j, a, b);
      }
    }
  }

  lemma NoRepeats(s: Shape, e: Element, S: set<XObject>)
    requires Holds(s, e, S)
    ensures Distinct(Preorder(s))
  {
    forall n, m | 0 <= n < m < |Preorder(s)| ensures Preorder(s)[n] != Preorder(s)[m] {
      PreorderDistinct(s, e, S, n, m);
    }
  }
}
