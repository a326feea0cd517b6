/** The serialiser, a walk over the objects of a tree that keeps no stack. */
module XmlSerializer {
  import opened Options
  import opened Sequences
  import opened Attributes
  import opened XmlTree
  import opened Objects

  datatype State = StateOpen | StateClose | StateStop

  /** The way from the current object up to the one to be written; each step is
      the tree of a parent and the index of the child below. */
  datatype Path = Top | Below(up: Path, s: Shape, e: Element, i: nat)

  /** The tree to be written. */
  datatype Task = Task(root: Shape, e: Element, S: set<XObject>)

  function Room(k: Task, path: Path): (r: set<XObject>) {
    if path == Top then k.S else k.S - {k.root.obj}
  }

  /** The path leads from the tree s up to the whole. */
  ghost predicate On(k: Task, path: Path, s: Shape, e: Element)
    reads k.S
    decreases path
  {
    s.obj in Room(k, path) && Holds(s, e, Room(k, path)) &&
    match path
    case Top => s == k.root && e == k.e
    case Below(up, ps, pe, i) =>
      i < |ps.kids| == |pe.kids| && ps.kids[i] == s && pe.kids[i] == e && On(k, up, ps, pe)
  }

  /** What is still to be written when the current tree is done. */
  ghost function ToWrite(path: Path): (t: string) {
    match path
    case Top => ""
    case Below(up, s, e, i) => (if i < |e.kids| then Texts(e.kids[i + 1..]) else "") + (Tail(e) + ToWrite(up))
  }

  ghost function ToVisit(path: Path): (r: seq<XObject>) {
    match path
    case Top => []
    case Below(up, s, e, i) => (if i < |s.kids| then Preorders(s.kids[i + 1..]) else []) + ToVisit(up)
  }

  ghost function Unwritten(st: State, path: Path, e: Element): (t: string) {
    match st
    case StateOpen => Text(e) + ToWrite(path)
    case StateClose => Tail(e) + ToWrite(path)
    case StateStop => ""
  }

  ghost function Unvisited(st: State, path: Path, s: Shape): (r: seq<XObject>) {
    match st
    case StateOpen => Preorder(s) + ToVisit(path)
    case StateClose => ToVisit(path)
    case StateStop => []
  }

  /** What one turn writes, with the object that it opens or closes. */
  datatype Piece = Opened(o: XObject, text: string) | Closed(o: XObject, text: string)

  /** An object is opened by its name and attributes, and closed by its content
      and its name; one without content and children is closed as it is opened. */
  ghost predicate Written(p: Piece)
    reads p.o
  {
    match p
    case Opened(o, text) =>
      text == Head(o.name, o.attrs) + if o.sons == null && o.content == "" then "/>" else ">"
    case Closed(o, text) => text == o.content + "</" + o.name + ">"
  }

  /** All of them pieces of objects of S. */
  ghost predicate AllWritten(ps: seq<Piece>, S: set<XObject>)
    reads S
  {
    forall p :: p in ps ==> p.o in S && Written(p)
  }

  function Joined(ps: seq<Piece>): (t: string) {
    if ps == [] then "" else Joined(ps[..|ps| - 1]) + ps[|ps| - 1].text
  }

  /** The objects opened, in this order. */
  function OpenedBy(ps: seq<Piece>): (r: seq<XObject>) {
    if ps == [] then [] else
    OpenedBy(ps[..|ps| - 1]) + if ps[|ps| - 1].Opened? then [ps[|ps| - 1].o] else []
  }

  lemma OneMorePiece(ps: seq<Piece>, p: Piece, S: set<XObject>)
    ensures Joined(ps + [p]) == Joined(ps) + p.text
    ensures OpenedBy(ps + [p]) == OpenedBy(ps) + if p.Opened? then [p.o] else []
    ensures AllWritten(ps, S) && p.o in S && Written(p) ==> AllWritten(ps + [p], S)
  {
    assert (ps + [p])[..|ps|] == ps;
  }

  lemma StepDown(k: Task, path: Path, s: Shape, e: Element, i: nat)
    requires On(k, path, s, e) && i < |s.kids|
    ensures |s.kids| == |e.kids| && On(k, Below(path, s, e, i), s.kids[i], e.kids[i])
  {
    hide Holds;
    KidHolds(s, e, Room(k, path), i);
    HoldsInMore(s.kids[i], e.kids[i], Room(k, path) - {s.obj}, k.S - {k.root.obj});
  }

  lemma Regroup<T>(h: seq<T>, g: seq<T>, a: seq<T>, b: seq<T>, c: seq<T>, d: seq<T>)
    ensures (h + (g + ((a + b) + c))) + d == (h + g) + (a + (b + (c + d)))
  {
  }

  lemma WriteDown(path: Path, s: Shape, e: Element)
    requires e.kids != [] && |s.kids| == |e.kids|
    ensures Unwritten(StateOpen, path, e) == (Head(e.name, e.attrs) + ">") + Unwritten(StateOpen, Below(path, s, e, 0), e.kids[0])
    ensures Unvisited(StateOpen, path, s) == [s.obj] + Unvisited(StateOpen, Below(path, s, e, 0), s.kids[0])
  {
    hide Head, Tail;
    assert Texts(e.kids) == Text(e.kids[0]) + Texts(e.kids[1..]);
    Regroup(Head(e.name, e.attrs), ">", Text(e.kids[0]), Texts(e.kids[1..]), Tail(e), ToWrite(path));
    assert Preorders(s.kids) == Preorder(s.kids[0]) + Preorders(s.kids[1..]);
    var p, ps, q := Preorder(s.kids[0]), Preorders(s.kids[1..]), ToVisit(path);
    assert ([s.obj] + (p + ps)) + q == [s.obj] + (p + (ps + q));
  }

  lemma WriteLeaf(path: Path, s: Shape, e: Element)
    requires e.kids == [] && s.kids == []
    ensures !IsBare(e) ==> Unwritten(StateOpen, path, e) == (Head(e.name, e.attrs) + ">") + Unwritten(StateClose, path, e)
    ensures IsBare(e) ==> Unwritten(StateOpen, path, e) == (Head(e.name, e.attrs) + "/>") + ToWrite(path)
    ensures Unvisited(StateOpen, path, s) == [s.obj] + ToVisit(path)
  {
    hide Head, Tail;
    assert Texts(e.kids) == "";
    Regroup(Head(e.name, e.attrs), ">", "", "", Tail(e), ToWrite(path));
    assert "" + ("" + (Tail(e) + ToWrite(path))) == Tail(e) + ToWrite(path);
    assert ("" + "") + Tail(e) == "" + Tail(e);
    assert Preorders(s.kids) == [] && Preorder(s) == [s.obj];
  }

  lemma WriteNext(up: Path, s: Shape, e: Element, i: nat)
    requires i + 1 < |s.kids| == |e.kids|
    ensures ToWrite(Below(up, s, e, i)) == Unwritten(StateOpen, Below(up, s, e, i + 1), e.kids[i + 1])
  {
    hide Text, Tail;
    var k := e.kids[i + 1..];
    assert k[0] == e.kids[i + 1] && k[1..] == e.kids[i + 2..];
    assert Texts(k) == Text(k[0]) + Texts(k[1..]);
    hide Texts;
    Grouped(Text(e.kids[i + 1]), Texts(e.kids[i + 2..]), Tail(e) + ToWrite(up));
  }

  lemma VisitNext(up: Path, s: Shape, e: Element, i: nat)
    requires i + 1 < |s.kids| == |e.kids|
    ensures ToVisit(Below(up, s, e, i)) == Unvisited(StateOpen, Below(up, s, e, i + 1), s.kids[i + 1])
  {
    hide Preorder;
    var k := s.kids[i + 1..];
    assert k[0] == s.kids[i + 1] && k[1..] == s.kids[i + 2..];
    assert Preorders(k) == Preorder(k[0]) + Preorders(k[1..]);
    hide Preorders;
    Grouped(Preorder(s.kids[i + 1]), Preorders(s.kids[i + 2..]), ToVisit(up));
  }

  lemma LastChildDone(up: Path, s: Shape, e: Element, i: nat)
    requires i + 1 == |s.kids| == |e.kids|
    ensures ToWrite(Below(up, s, e, i)) == Unwritten(StateClose, up, e) && ToVisit(Below(up, s, e, i)) == ToVisit(up)
  {
    assert e.kids[i + 1..] == [] && s.kids[i + 1..] == [];
    assert Texts([]) == "" && Preorders([]) == [];
  }

  /** From a finished object to its sibling or its parent, or to the end. */
  method Leave(p: XObject, o: XObject, ghost k: Task, ghost path: Path, ghost s: Shape, ghost e: Element)
    returns (state: State, next: XObject, ghost npath: Path, ghost ns: Shape, ghost ne: Element)
    requires On(k, path, s, e) && o == s.obj && p == k.root.obj
    ensures if o == p then state == StateStop && next == o
            else if o.sibling != null then state == StateOpen && next == o.sibling
            else state == StateClose && next == o.parent
    ensures On(k, npath, ns, ne) && next == ns.obj
    ensures ToWrite(path) == Unwritten(state, npath, ne) && ToVisit(path) == Unvisited(state, npath, ns)
  {
    hide Holds, Unwritten, Unvisited;
    next, npath, ns, ne := o, path, s, e;
    if o == p {
      assert ToWrite(path) == Unwritten(StateStop, npath, ne) by {
        Finished(path, s, e);
      }
      assert ToVisit(path) == Unvisited(StateStop, npath, ns) by {
        Finished(path, s, e);
      }
      state := StateStop;
      return;
    }
    ghost var up, ps, pe, i := path.up, path.s, path.e, path.i;
    KidHolds(ps, pe, Room(k, up), i);
    if o.sibling != null {
      WriteNext(up, ps, pe, i);
      VisitNext(up, ps, pe, i);
      next, state := o.sibling, StateOpen;
      StepDown(k, up, ps, pe, i + 1);
      npath, ns, ne := Below(up, ps, pe, i + 1), ps.kids[i + 1], pe.kids[i + 1];
    } else {
      LastChildDone(up, ps, pe, i);
      next, state := o.parent, StateClose;
      npath, ns, ne := up, ps, pe;
      Closing(up, ps);
    }
  }

  lemma Finished(path: Path, s: Shape, e: Element)
    requires path == Top
    ensures ToWrite(path) == Unwritten(StateStop, path, e) && ToVisit(path) == Unvisited(StateStop, path, s)
  {
  }

  lemma Closing(path: Path, s: Shape)
    ensures ToVisit(path) == Unvisited(StateClose, path, s)
  {
  }

  /** The opening tag up to its end. */
  method WriteHead(o: XObject) returns (out: string)
    ensures out == Head(o.name, o.attrs)
  {
    out := "<" + o.name;
    var cell := 0;
    assert o.attrs[0..] == o.attrs;
    while cell < |o.attrs|
      invariant cell <= |o.attrs| && out + AttrText(o.attrs[cell..]) == Head(o.name, o.attrs)
    {
      var a := o.attrs[cell];
      assert o.attrs[cell..][1..] == o.attrs[cell + 1..];
      assert out + (" " + a.key + "='" + a.val + "'" + AttrText(o.attrs[cell + 1..])) ==
        out + " " + a.key + "='" + a.val + "'" + AttrText(o.attrs[cell + 1..]);
      out := out + " " + a.key + "='" + a.val + "'";
      cell := cell + 1;
    }
  }

  method OpenTurn(p: XObject, o: XObject, ghost k: Task, ghost path: Path, ghost s: Shape, ghost e: Element)
    returns (piece: string, state: State, next: XObject, ghost npath: Path, ghost ns: Shape, ghost ne: Element)
    requires On(k, path, s, e) && o == s.obj && p == k.root.obj
    ensures On(k, npath, ns, ne) && next == ns.obj && piece != ""
    ensures Unwritten(StateOpen, path, e) == piece + Unwritten(state, npath, ne)
    ensures Unvisited(StateOpen, path, s) == [o] + Unvisited(state, npath, ns)
    ensures Written(Opened(o, piece))
  {
    hide Holds, Unwritten, Unvisited, Room, ToWrite, ToVisit;
    AtRoot(s, e, Room(k, path));
    var head := WriteHead(o);
    next, npath, ns, ne := o, path, s, e;
    if o.sons != null || o.content != "" {
      piece := head + ">";
      if o.sons != null {
        WriteDown(path, s, e);
        StepDown(k, path, s, e, 0);
        next, state := o.sons, StateOpen;
        npath, ns, ne := Below(path, s, e, 0), s.kids[0], e.kids[0];
      } else {
        WriteLeaf(path, s, e);
        Closing(path, s);
        state := StateClose;
      }
    } else {
      WriteLeaf(path, s, e);
      piece := head + "/>";
      state, next, npath, ns, ne := Leave(p, o, k, path, s, e);
    }
  }

  method CloseTurn(p: XObject, o: XObject, ghost k: Task, ghost path: Path, ghost s: Shape, ghost e: Element)
    returns (piece: string, state: State, next: XObject, ghost npath: Path, ghost ns: Shape, ghost ne: Element)
    requires On(k, path, s, e) && o == s.obj && p == k.root.obj
    ensures On(k, npath, ns, ne) && next == ns.obj && piece != ""
    ensures Unwritten(StateClose, path, e) == piece + Unwritten(state, npath, ne)
    ensures Unvisited(StateClose, path, s) == Unvisited(state, npath, ns)
    ensures Written(Closed(o, piece))
  {
    hide Holds, Unvisited, Room;
    AtRoot(s, e, Room(k, path));
    piece := "";
    if o.content != "" {
      piece := o.content;
    }
    piece := piece + "</" + o.name + ">";
    assert piece == Tail(e);
    Closing(path, s);
    hide Unwritten;
    state, next, npath, ns, ne := Leave(p, o, k, path, s, e);
  }

  lemma Ended(path: Path, s: Shape, e: Element)
    ensures Unwritten(StateStop, path, e) == "" && Unvisited(StateStop, path, s) == []
  {
  }

  lemma Begun(s: Shape, e: Element)
    ensures Unwritten(StateOpen, Top, e) == Text(e) && Unvisited(StateOpen, Top, s) == Preorder(s)
  {
    assert Text(e) + "" == Text(e) && Preorder(s) + [] == Preorder(s);
  }

  /** __x_parser_object_serialize: whatever the object hangs on, the output is
      the text of its own tree.  It is made of the pieces that are returned beside
      it, each of which opens or closes an object of the tree; every object is
      opened once, in document order. */
  method Serialize(xobj: XObject, ghost k: Task) returns (out: string, pieces: seq<Piece>)
    requires k.root.obj == xobj && Holds(k.root, k.e, k.S)
    ensures out == Text(k.e) == Joined(pieces)
    ensures OpenedBy(pieces) == Preorder(k.root) && Distinct(OpenedBy(pieces))
    ensures AllWritten(pieces, k.S)
  {
    hide Holds, Text, Texts, Preorder, Preorders, ToWrite, ToVisit, Unwritten, Unvisited, Written, AllWritten, Joined, OpenedBy;
    var o, state := xobj, StateOpen;
    ghost var path, s, e := Top, k.root, k.e;
    out, pieces := "", [];
    NoPieces(k.S);
    Begun(s, e);
    RootHolds(s, e, k.S);
    while state != StateStop
      invariant On(k, path, s, e) && o == s.obj
      invariant out == Joined(pieces) && AllWritten(pieces, k.S)
      invariant out + Unwritten(state, path, e) == Text(k.e)
      invariant OpenedBy(pieces) + Unvisited(state, path, s) == Preorder(k.root)
      decreases |Text(k.e)| - |out|
    {
      var at, piece := o, "";
      ghost var before := pieces;
      if state == StateOpen {
        piece, state, o, path, s, e := OpenTurn(xobj, o, k, path, s, e);
        pieces := pieces + [Opened(at, piece)];
        Grouped(OpenedBy(before), [at], Unvisited(state, path, s));
      } else {
        piece, state, o, path, s, e := CloseTurn(xobj, o, k, path, s, e);
        pieces := pieces + [Closed(at, piece)];
        assert OpenedBy(before) + [] == OpenedBy(before);
      }
      OneMorePiece(before, pieces[|before|], k.S);
      Grouped(out, piece, Unwritten(state, path, e));
      out := out + piece;
    }
    Ended(path, s, e);
    assert out + "" == out && OpenedBy(pieces) + [] == OpenedBy(pieces);
    NoRepeats(k.root, k.e, k.S);
  }

  lemma NoPieces(S: set<XObject>)
    ensures Joined([]) == "" && OpenedBy([]) == [] && AllWritten([], S)
  {
  }
}
