/** Copying objects and whole trees of them. */
module ObjectCopy {
  import opened Options
  import opened Attributes
  import opened XmlTree
  import opened Objects
  import opened XmlSerializer

  /** x_object_default_assign_cb */
  method DefaultAssign(o: XObject, attrs: Attrs)
    modifies o`attrs
    ensures o.attrs == SetAll(old(o.attrs), attrs)
  {
    var attr := 0;
    assert attrs[0..] == attrs;
    while attr < |attrs|
      invariant attr <= |attrs| && SetAll(o.attrs, attrs[attr..]) == SetAll(old(o.attrs), attrs)
    {
      assert attrs[attr..][1..] == attrs[attr + 1..];
      o.attrs := SetAttrIn(attrs[attr].key, Some(attrs[attr].val), o.attrs);
      attr := attr + 1;
    }
  }

  /** x_object_copy */
  method Copy(o: XObject) returns (msg: XObject)
    ensures fresh(msg) && msg.name == o.name && msg.attrs == SetAll([], o.attrs) && msg.content == o.content
    ensures msg.parent == null && msg.sibling == null && Linked(msg, [])
  {
    msg := new XObject("$message");
    msg.name := o.name;
    DefaultAssign(msg, o.attrs);
    msg.content := msg.content + o.content;
  }

  ghost function LastOf(kids: seq<XObject>): (r: set<XObject>)
    ensures forall k :: k in r ==> k in kids
  {
    if kids == [] then {} else {kids[|kids| - 1]}
  }

  /** __x_object_insert_into_tree, which walks to the last child. */
  method InsertIntoTree(parent: XObject, xobj: XObject, ghost kids: seq<XObject>)
    requires Linked(parent, kids) && xobj != parent && xobj !in kids && parent !in kids
    modifies parent`sons, parent`childCount, xobj`parent, xobj`sibling, LastOf(kids)`sibling
    ensures Linked(parent, kids + [xobj])
  {
    xobj.parent := parent;
    var xp := parent.sons;
    if xp == null {
      parent.sons := xobj;
    } else {
      var xt: XObject := xp;
      ghost var i := 0;
      xp := xt.sibling;
      while xp != null
        invariant i < |kids| && xt == kids[i] && xp == At(kids, i + 1)
        decreases |kids| - i
      {
        xt := xp;
        xp := xt.sibling;
        i := i + 1;
      }
      LastOnly(parent, kids);
      xt.sibling := xobj;
    }
    xobj.sibling := null;
    parent.childCount := parent.childCount + 1;
  }

  lemma LastOnly(parent: XObject, kids: seq<XObject>)
    requires Linked(parent, kids) && kids != []
    ensures forall i :: 0 <= i < |kids| - 1 ==> kids[i] != kids[|kids| - 1]
  {
    forall i | 0 <= i < |kids| - 1 ensures kids[i] != kids[|kids| - 1] {
      KidsDiffer(parent, kids, i, |kids| - 1);
    }
  }

  /** The copies made so far, each of objects of its own. */
  datatype Made = Made(ss: seq<Shape>, sets: seq<set<XObject>>, all: set<XObject>)

  ghost predicate Apart(m: Made) {
    && |m.ss| == |m.sets| && (forall i :: 0 <= i < |m.ss| ==> m.ss[i].obj in m.sets[i] && m.sets[i] <= m.all)
    && forall i, j :: 0 <= i < |m.sets| && 0 <= j < |m.sets| && i != j ==> m.sets[i] !! m.sets[j]
  }

  ghost function OneMore(m: Made, s: Shape, S: set<XObject>): (r: Made) {
    Made(m.ss + [s], m.sets + [S], m.all + S)
  }

  ghost predicate HoldAll(m: Made, es: seq<Element>)
    requires Apart(m)
    reads m.all
  {
    |m.ss| <= |es| && forall i :: 0 <= i < |m.ss| ==> Holds(m.ss[i], es[i], m.sets[i])
  }

  lemma StillApart(m: Made, s: Shape, S: set<XObject>)
    requires Apart(m) && s.obj in S && S !! m.all
    ensures Apart(OneMore(m, s, S)) && Tops(m.ss + [s]) == Tops(m.ss) + [s.obj]
    ensures s.obj !in Tops(m.ss)
  {
    forall i | 0 <= i < |m.sets| ensures m.sets[i] !! S && m.ss[i].obj in m.all {
    }
  }

  /** The last child is in no other copy. */
  lemma LastApart(m: Made, i: nat)
    requires Apart(m) && i < |m.ss|
    ensures LastOf(Tops(m.ss)) !! m.sets[i] - {m.ss[i].obj} && m.sets[i] <= m.all
  {
  }

  lemma TopsInside(m: Made)
    requires Apart(m)
    ensures forall k :: k in Tops(m.ss) ==> k in m.all
  {
  }

  /** The copies and their parent make up a tree. */
  lemma Assembled(c: XObject, e: Element, m: Made)
    requires Apart(m) && c !in m.all && |m.ss| == |e.kids| && Linked(c, Tops(m.ss))
    requires c.name == e.name && c.attrs == e.attrs && c.content == e.content
    requires HoldAll(m, e.kids)
    ensures Holds(Shape(c, m.ss), e, {c} + m.all)
  {
    var s, S := Shape(c, m.ss), {c} + m.all;
    forall i | 0 <= i < |m.ss| ensures Holds(s.kids[i], e.kids[i], S - {c}) && m.ss[i].obj in S - {c} {
      HoldsInMore(m.ss[i], e.kids[i], m.sets[i], S - {c});
    }
  }

  /** x_object_append_child_no_cb */
  method AppendChildNoCb(parent: XObject, child: XObject, ghost m: Made, ghost es: seq<Element>, ghost s: Shape, ghost S: set<XObject>)
    requires Apart(m) && Linked(parent, Tops(m.ss)) && HoldAll(m, es) && |es| > |m.ss|
    requires s.obj == child && child in S && parent !in S + m.all && S !! m.all && Holds(s, es[|m.ss|], S)
    modifies parent`sons, parent`childCount, child`parent, child`sibling, LastOf(Tops(m.ss))`sibling
    ensures Apart(OneMore(m, s, S)) && Linked(parent, Tops(m.ss + [s])) && HoldAll(OneMore(m, s, S), es)
  {
    hide Holds, Linked, Apart, LastOf;
    StillApart(m, s, S);
    ghost var n := OneMore(m, s, S);
    TopsInside(m);
    forall i | 0 <= i < |m.ss| ensures LastOf(Tops(m.ss)) !! m.sets[i] - {m.ss[i].obj} && m.sets[i] <= m.all {
      LastApart(m, i);
    }
    InsertIntoTree(parent, child, Tops(m.ss));
    forall i | 0 <= i < |n.ss| ensures Holds(n.ss[i], es[i], n.sets[i]) {
      if i < |m.ss| {
        assert n.sets[i] == m.sets[i];
        assert old(Holds(m.ss[i], es[i], m.sets[i]));
      }
    }
  }

  /** x_object_full_copy: new objects, which hold a copy of the tree. */
  method FullCopy(o: XObject, ghost s: Shape, ghost e: Element, ghost S: set<XObject>)
    returns (msg: XObject, ghost cs: Shape, ghost R: set<XObject>)
    requires s.obj == o && Holds(s, e, S)
    ensures fresh(R) && msg in R && cs.obj == msg && Holds(cs, Copied(e), R)
    ensures msg.parent == null && msg.sibling == null
    decreases s
  {
    hide Holds, Linked, Apart, HoldAll, Copied, CopiedAll, SetAll;
    AtRoot(s, e, S);
    msg := Copy(o);
    ghost var m, c := Made([], [], {}), Copied(e);
    CopiedIs(e);
    NoneMade(c.kids);
    var tmp := o.sons;
    ghost var i := 0;
    while tmp != null
      invariant i <= |s.kids| == |e.kids| && tmp == At(Tops(s.kids), i) && Holds(s, e, S)
      invariant fresh(msg) && fresh(m.all) && msg !in m.all && |m.ss| == i
      invariant Apart(m) && HoldAll(m, c.kids) && Linked(msg, Tops(m.ss))
      invariant msg.name == c.name && msg.attrs == c.attrs && msg.content == c.content
      invariant msg.parent == null && msg.sibling == null
      decreases |s.kids| - i
    {
      KidHolds(s, e, S, i);
      TopsInside(m);
      ghost var ck, ckr;
      var child;
      child, ck, ckr := FullCopy(tmp, s.kids[i], e.kids[i], S - {s.obj});
      AppendChildNoCb(msg, child, m, c.kids, ck, ckr);
      m := OneMore(m, ck, ckr);
      tmp := tmp.sibling;
      i := i + 1;
    }
    cs, R := Shape(msg, m.ss), {msg} + m.all;
    Assembled(msg, c, m);
  }

  /** Serialising a copy of a copy gives the text of the original. */
  method SerializeSecondCopy(o: XObject, ghost s: Shape, ghost e: Element, ghost S: set<XObject>) returns (out: string)
    requires s.obj == o && Holds(s, e, S) && Keyed(e)
    ensures out == Text(e)
  {
    hide Holds;
    var c, cs, R := FullCopy(o, s, e, S);
    var d, ds, T := FullCopy(c, cs, Copied(e), R);
    CopyTwice(e);
    var text, _ := Serialize(d, Task(ds, e, T));
    out := text;
  }

  lemma CopiedIs(e: Element)
    ensures var c := Copied(e);
      && c.name == e.name && c.attrs == SetAll([], e.attrs) && c.content == e.content
      && |c.kids| == |e.kids| && forall i :: 0 <= i < |e.kids| ==> c.kids[i] == Copied(e.kids[i])
  {
  }

  lemma NoneMade(es: seq<Element>)
    ensures Apart(Made([], [], {})) && HoldAll(Made([], [], {}), es)
  {
  }
}
