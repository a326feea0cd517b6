/** The 4-ary timer heap of the event loop.

    Position i of the sequence `h` is the C array element [i + HEAP0]; the
    first HEAP0 array elements are never used.  A heap element caches the
    expiry time of its watcher, and a watcher's `active` field is the array
    index of its own element. */
module TimerHeap {

  const HEAP0 := 3
  const DHEAP := 4

  datatype Kind = Timer | Periodic | Other

  /** The fields of ev_watcher, ev_timer and ev_periodic that the loop uses.
      `pri` is the priority counted from the lowest one. */
  class Watcher {
    const kind: Kind
    const pri: nat
    var active: int
    var pending: nat
    var at: real
    var repeat: real
    var offset: real
    var interval: real
    const rescheduler: bool           // is there a reschedule callback?
    const reschedule: real -> real    // what it answers at a given time

    constructor (kind: Kind, pri: nat, after: real, repeat: real, offset: real, interval: real,
                 rescheduler: bool, reschedule: real -> real)
      ensures this.kind == kind && this.pri == pri && active == 0 && pending == 0
      ensures at == after && this.repeat == repeat && this.offset == offset && this.interval == interval
      ensures this.rescheduler == rescheduler && this.reschedule == reschedule
    {
      this.kind, this.pri := kind, pri;
      active, pending := 0, 0;
      at, this.repeat, this.offset, this.interval := after, repeat, offset, interval;
      this.rescheduler, this.reschedule := rescheduler, reschedule;
    }
  }

  /** A heap element: the watcher and the cached copy of its expiry time. */
  datatype Anhe = Anhe(at: real, w: Watcher)

  /** The parent's position.  At the root the truncating division of C gives
      the root itself, which is how `upheap` notices that it is done. */
  function Parent(i: nat): (p: nat)
    ensures p <= i && (p == i <==> i == 0)
    ensures i > 0 ==> DHEAP * p + 1 <= i <= DHEAP * p + DHEAP
  {
    if i == 0 then 0 else (i - 1) / DHEAP
  }

  // ---------- what a heap is ----------

  /** The elements before position n are in heap order. */
  ghost predicate Ordered(h: seq<Anhe>, n: nat)
    requires n <= |h|
  {
    forall c :: 0 < c < n ==> h[Parent(c)].at <= h[c].at
  }

  /** Ordered, except that the element at k may be too small for its place. */
  ghost predicate MayRise(h: seq<Anhe>, n: nat, k: nat)
    requires k < n <= |h|
  {
    && (forall c :: 0 < c < n && c != k ==> h[Parent(c)].at <= h[c].at)
    && (forall c :: 0 < c < n && Parent(c) == k ==> h[Parent(k)].at <= h[c].at)
  }

  /** Ordered, except that the element at k may be too large for its place. */
  ghost predicate MaySink(h: seq<Anhe>, n: nat, k: nat)
    requires k < n <= |h|
  {
    && (forall c :: 0 < c < n && Parent(c) != k ==> h[Parent(c)].at <= h[c].at)
    && (k > 0 ==> forall c :: 0 < c < n && Parent(c) == k ==> h[Parent(k)].at <= h[c].at)
  }

  /** Ordered, except that the element at k may be wrong either way. */
  ghost predicate Misplaced(h: seq<Anhe>, k: nat)
    requires k < |h|
  {
    && (forall c :: 0 < c < |h| && c != k && Parent(c) != k ==> h[Parent(c)].at <= h[c].at)
    && (k > 0 ==> forall c :: 0 < c < |h| && Parent(c) == k ==> h[Parent(k)].at <= h[c].at)
  }

  function Swapped(h: seq<Anhe>, i: nat, j: nat): (r: seq<Anhe>)
    requires i < |h| && j < |h|
    ensures |r| == |h|
  {
    h[i := h[j]][j := h[i]]
  }

  lemma SwapKeepsElements(h: seq<Anhe>, i: nat, j: nat)
    requires i < |h| && j < |h|
    ensures multiset(Swapped(h, i, j)) == multiset(h)
  {
  }

  lemma RiseStep(h: seq<Anhe>, n: nat, k: nat)
    requires 0 < k < n <= |h| && MayRise(h, n, k)
    requires h[k].at < h[Parent(k)].at
    ensures MayRise(Swapped(h, k, Parent(k)), n, Parent(k))
  {
    var p := Parent(k);
    var g := Swapped(h, k, p);
    forall c | 0 < c < n && c != p ensures g[Parent(c)].at <= g[c].at {
      assert c != k ==> h[Parent(c)].at <= h[c].at;
    }
    forall c | 0 < c < n && Parent(c) == p ensures g[Parent(p)].at <= g[c].at {
      assert c != k ==> h[Parent(c)].at <= h[c].at;
      assert p > 0 ==> h[Parent(p)].at <= h[p].at;
    }
  }

  lemma SinkStep(h: seq<Anhe>, n: nat, k: nat, m: nat)
    requires k < m < n <= |h| && Parent(m) == k && MaySink(h, n, k)
    requires forall c :: 0 < c < n && Parent(c) == k ==> h[m].at <= h[c].at
    requires h[m].at < h[k].at
    ensures MaySink(Swapped(h, k, m), n, m)
  {
    var g := Swapped(h, k, m);
    forall c | 0 < c < n && Parent(c) != m ensures g[Parent(c)].at <= g[c].at {
      assert Parent(c) != k ==> h[Parent(c)].at <= h[c].at;
    }
    forall c | 0 < c < n && Parent(c) == m ensures g[Parent(m)].at <= g[c].at {
      assert h[Parent(c)].at <= h[c].at;
    }
  }

  // ---------- what the sifting loops compute ----------

  /** The first position of a smallest element in h[lo..hi]. */
  function LeastIn(h: seq<Anhe>, lo: nat, hi: nat): (m: nat)
    requires lo < hi <= |h|
    ensures lo <= m < hi
    ensures forall c :: lo <= c < hi ==> h[m].at <= h[c].at
  {
    if hi == lo + 1 then lo else
    var m := LeastIn(h, lo, hi - 1);
    if h[hi - 1].at < h[m].at then hi - 1 else m
  }

  function FirstChild(k: nat): (res: nat) { DHEAP * k + 1 }

  /** One past the last child of k in a heap of n elements. */
  function EndOfChildren(k: nat, n: nat): (res: nat) {
    if FirstChild(k) + DHEAP < n then FirstChild(k) + DHEAP else n
  }

  /** The least child of position k, or k itself at a leaf. */
  function LeastChild(h: seq<Anhe>, k: nat): (m: nat)
    requires k < |h|
    ensures m < |h| && (m == k <==> |h| <= FirstChild(k))
    ensures m != k ==> k < m && Parent(m) == k
  {
    if |h| <= FirstChild(k) then k else LeastIn(h, FirstChild(k), EndOfChildren(k, |h|))
  }

  lemma LeastChildIsLeast(h: seq<Anhe>, k: nat, c: nat)
    requires 0 < c < |h| && Parent(c) == k
    ensures h[LeastChild(h, k)].at <= h[c].at
  {
  }

  lemma {:induction false} LeastInLooksInside(h: seq<Anhe>, k: nat, e: Anhe, lo: nat, hi: nat)
    requires k < lo < hi <= |h|
    ensures LeastIn(h[k := e], lo, hi) == LeastIn(h, lo, hi)
  {
    if hi > lo + 1 {
      LeastInLooksInside(h, k, e, lo, hi - 1);
    }
  }

  /** Lets the element at k sink as far as it must. */
  function Sink(h: seq<Anhe>, k: nat): (r: seq<Anhe>)
    requires k < |h|
    ensures |r| == |h|
    decreases |h| - k
  {
    var m := LeastChild(h, k);
    if m == k || h[k].at <= h[m].at then h else Sink(Swapped(h, k, m), m)
  }

  /** Lets the element at k rise as far as it must. */
  function Rise(h: seq<Anhe>, k: nat): (r: seq<Anhe>)
    requires k < |h|
    ensures |r| == |h|
    decreases k
  {
    var p := Parent(k);
    if p == k || h[p].at <= h[k].at then h else Rise(Swapped(h, k, p), p)
  }

  /** One step of the loop in `DownHeap`: e is the element lifted out of the hole at k. */
  lemma SinkOnce(h: seq<Anhe>, k: nat, e: Anhe)
    requires k < |h|
    ensures var m := LeastChild(h, k);
      Sink(h[k := e], k) == if m == k || e.at <= h[m].at then h[k := e] else Sink(h[k := h[m]][m := e], m)
  {
    var g, m := h[k := e], LeastChild(h, k);
    if m != k {
      LeastInLooksInside(h, k, e, FirstChild(k), EndOfChildren(k, |h|));
    }
    assert Swapped(g, k, m) == h[k := h[m]][m := e];
  }

  lemma {:induction false} SinkSorts(h: seq<Anhe>, k: nat)
    requires k < |h| && MaySink(h, |h|, k)
    ensures Ordered(Sink(h, k), |h|)
    decreases |h| - k
  {
    var m := LeastChild(h, k);
    forall c | 0 < c < |h| && Parent(c) == k ensures h[m].at <= h[c].at {
      LeastChildIsLeast(h, k, c);
    }
    if m != k && h[m].at < h[k].at {
      SinkStep(h, |h|, k, m);
      SinkSorts(Swapped(h, k, m), m);
    }
  }

  lemma {:induction false} SinkPermutes(h: seq<Anhe>, k: nat)
    requires k < |h|
    ensures Permuted(Sink(h, k), h)
    decreases |h| - k
  {
    var m := LeastChild(h, k);
    if m != k && h[m].at < h[k].at {
      SwapKeepsElements(h, k, m);
      SinkPermutes(Swapped(h, k, m), m);
    }
  }

  /** Rising reorders the first n elements only, and orders them. */
  lemma {:induction false} RiseSorts(h: seq<Anhe>, n: nat, k: nat)
    requires k < n <= |h| && MayRise(h, n, k)
    ensures Ordered(Rise(h, k), n) && Rise(h, k)[n..] == h[n..]
    decreases k
  {
    var p := Parent(k);
    if p != k && h[k].at < h[p].at {
      RiseStep(h, n, k);
      RiseSorts(Swapped(h, k, p), n, p);
    }
  }

  lemma {:induction false} RisePermutes(h: seq<Anhe>, k: nat)
    requires k < |h|
    ensures Permuted(Rise(h, k), h)
    decreases k
  {
    var p := Parent(k);
    if p != k && h[k].at < h[p].at {
      SwapKeepsElements(h, k, p);
      RisePermutes(Swapped(h, k, p), p);
    }
  }

  lemma MisplacedEitherWay(h: seq<Anhe>, k: nat)
    requires k < |h| && Misplaced(h, k)
    ensures k > 0 && h[k].at <= h[Parent(k)].at ==> MayRise(h, |h|, k)
    ensures k > 0 && h[Parent(k)].at < h[k].at ==> MaySink(h, |h|, k)
    ensures k == 0 ==> MaySink(h, |h|, k)
  {
  }

  /** The root of a heap is a minimum. */
  lemma {:induction false} RootIsLeast(h: seq<Anhe>, n: nat, i: nat)
    requires i < n <= |h| && Ordered(h, n)
    ensures h[0].at <= h[i].at
  {
    if i > 0 {
      RootIsLeast(h, n, Parent(i));
    }
  }

  /** `h` and `g` hold the same elements, each as often. */
  ghost predicate Permuted(h: seq<Anhe>, g: seq<Anhe>) {
    |h| == |g| && multiset(h) == multiset(g)
  }

  lemma PermutedIn(h: seq<Anhe>, g: seq<Anhe>)
    requires Permuted(h, g)
    ensures forall e :: e in h <==> e in g
  {
    forall e ensures e in h <==> e in g {
      assert e in h <==> e in multiset(h);
      assert e in g <==> e in multiset(g);
    }
  }

  ghost predicate Apart(h: seq<Anhe>) {
    forall i, j :: 0 <= i < j < |h| ==> h[i].w != h[j].w
  }

  ghost function Watchers(h: seq<Anhe>): (s: set<Watcher>) {
    set i | 0 <= i < |h| :: h[i].w
  }

  lemma WatchersOfAppend(h: seq<Anhe>, e: Anhe)
    ensures Watchers(h + [e]) == Watchers(h) + {e.w}
  {
    var g := h + [e];
    assert g[|h|] == e;
    assert forall i :: 0 <= i < |h| ==> g[i] == h[i];
  }

  /** Dropping the last element after copying it over position k. */
  function Removed(h: seq<Anhe>, k: nat): (r: seq<Anhe>)
    requires k < |h|
    ensures |r| == |h| - 1
  {
    var g := h[..|h| - 1];
    if k < |g| then g[k := h[|h| - 1]] else g
  }

  lemma WatchersOfRemoved(h: seq<Anhe>, k: nat)
    requires k < |h| && Apart(h)
    ensures Watchers(Removed(h, k)) == Watchers(h) - {h[k].w}
  {
    var r := Removed(h, k);
    forall w | w in Watchers(h) && w != h[k].w ensures w in Watchers(r) {
      var i :| 0 <= i < |h| && h[i].w == w;
      assert r[if i == |h| - 1 then k else i].w == w;
    }
  }

  lemma RemovedIsMisplaced(h: seq<Anhe>, k: nat)
    requires k < |h| - 1 && Ordered(h, |h|)
    ensures Misplaced(Removed(h, k), k)
  {
    var r := Removed(h, k);
    forall c | 0 < c < |r| && Parent(c) == k && k > 0 ensures r[Parent(k)].at <= r[c].at {
      assert h[Parent(k)].at <= h[k].at <= h[c].at;
    }
  }

  lemma ChangedIsMisplaced(h: seq<Anhe>, k: nat, e: Anhe)
    requires k < |h| && Ordered(h, |h|)
    ensures Misplaced(h[k := e], k) && MaySink(h[0 := if k == 0 then e else h[0]], |h|, 0)
  {
    var r := h[k := e];
    forall c | 0 < c < |r| && Parent(c) == k && k > 0 ensures r[Parent(k)].at <= r[c].at {
      assert h[Parent(k)].at <= h[k].at <= h[c].at;
    }
  }

  class Heap {
    var h: seq<Anhe>

    constructor ()
      ensures h == []
    {
      h := [];
    }

    ghost function Ws(): (res: set<Watcher>)
      reads this
    {
      Watchers(h)
    }

    /** Every element is indexed by its watcher, which is in S. */
    ghost predicate Indexed(S: set<Watcher>)
      reads this, S`active
    {
      forall i :: 0 <= i < |h| ==> h[i].w in S && h[i].w.active == i + HEAP0
    }

    /** Position k is a hole left by lifting `he` out; all the other elements
        are indexed by their watchers, which are in S. */
    ghost predicate Holed(k: nat, he: Anhe, S: set<Watcher>)
      reads this, S`active
    {
      && k < |h| && he.w in S
      && forall i :: 0 <= i < |h| ==>
           h[i].w in S && (i != k ==> h[i].w.active == i + HEAP0 && h[i].w != he.w)
    }

    ghost predicate Cached()
      reads this, Ws()`active, Ws()`at
    {
      forall i :: 0 <= i < |h| ==> h[i].at == h[i].w.at
    }

    /** The invariant that the C function verify_heap asserts. */
    ghost predicate Valid()
      reads this, Ws()`active, Ws()`at
    {
      Ordered(h, |h|) && Indexed(Ws()) && Cached()
    }

    lemma ValidActive()
      requires Valid()
      ensures forall w :: w in Ws() ==> w.active >= HEAP0
    {
    }

    lemma IndexedIsHoled(k: nat, S: set<Watcher>)
      requires Indexed(S) && k < |h|
      ensures Holed(k, h[k], S)
    {
    }

    /** Looks for the least of the up to DHEAP children of k. */
    method MinChild(k: nat) returns (m: nat)
      requires FirstChild(k) < |h|
      ensures m == LeastChild(h, k)
    {
      var pos, n := FirstChild(k), |h|;
      m := pos;
      var minat := h[m].at;
      if pos + DHEAP - 1 < n {
        if h[pos + 1].at < minat { m := pos + 1; minat := h[m].at; }
        assert m == LeastIn(h, pos, pos + 2);
        if h[pos + 2].at < minat { m := pos + 2; minat := h[m].at; }
        assert m == LeastIn(h, pos, pos + 3);
        if h[pos + 3].at < minat { m := pos + 3; minat := h[m].at; }
      } else {
        if pos + 1 < n && h[pos + 1].at < minat { m := pos + 1; minat := h[m].at; }
        assert pos + 1 < n ==> m == LeastIn(h, pos, pos + 2);
        if pos + 2 < n && h[pos + 2].at < minat { m := pos + 2; minat := h[m].at; }
        // the C code also tries pos + 3, which cannot be below n here
      }
    }

    /** Moves the element at m into the hole at k, which leaves a hole at m. */
    method MoveHole(k: nat, m: nat, he: Anhe, ghost S: set<Watcher>)
      requires Holed(k, he, S) && m < |h| && m != k
      modifies this, S`active
      ensures h == old(h)[k := old(h)[m]] && Holed(m, he, S)
    {
      h := h[k := h[m]];
      h[k].w.active := k + HEAP0;
    }

    method FillHole(k: nat, he: Anhe, ghost S: set<Watcher>)
      requires Holed(k, he, S)
      modifies this, S`active
      ensures h == old(h)[k := he] && Indexed(S)
    {
      h := h[k := he];
      he.w.active := k + HEAP0;
    }

    /** Away from the root. */
    method DownHeap(k0: nat, ghost S: set<Watcher>)
      requires k0 < |h| && Holed(k0, h[k0], S)
      modifies this, S`active
      ensures h == Sink(old(h), k0) && Indexed(S)
    {
      var k := k0;
      var he := h[k];
      assert h[k := he] == h;
      while FirstChild(k) < |h|
        invariant Holed(k, he, S) && Sink(h[k := he], k) == Sink(old(h), k0)
        decreases |h| - k
      {
        SinkOnce(h, k, he);
        var m := MinChild(k);
        if he.at <= h[m].at {
          break;
        }
        MoveHole(k, m, he, S);
        k := m;
      }
      SinkOnce(h, k, he);
      FillHole(k, he, S);
    }

    /** Towards the root. */
    method UpHeap(k0: nat, ghost S: set<Watcher>)
      requires k0 < |h| && Holed(k0, h[k0], S)
      modifies this, S`active
      ensures h == Rise(old(h), k0) && Indexed(S)
    {
      var k := k0;
      var he := h[k];
      assert h[k := he] == h;
      while true
        invariant Holed(k, he, S) && Rise(h[k := he], k) == Rise(old(h), k0)
        decreases k
      {
        var p := Parent(k);
        if p == k || h[p].at <= he.at {
          break;
        }
        assert Swapped(h[k := he], k, p) == h[k := h[p]][p := he];
        MoveHole(k, p, he, S);
        k := p;
      }
      FillHole(k, he, S);
    }

    method RaiseInPrefix(n: nat, k: nat, ghost S: set<Watcher>)
      requires k < n <= |h| && Holed(k, h[k], S) && MayRise(h, n, k)
      modifies this, S`active
      ensures Permuted(h, old(h)) && Ordered(h, n) && Indexed(S)
    {
      RiseSorts(h, n, k);
      RisePermutes(h, k);
      UpHeap(k, S);
    }

    /** Repairs the place of one element whose key changed either way. */
    method AdjustHeap(k: nat, ghost S: set<Watcher>)
      requires k < |h| && Holed(k, h[k], S) && Misplaced(h, k)
      modifies this, S`active
      ensures Permuted(h, old(h)) && Ordered(h, |h|) && Indexed(S)
    {
      MisplacedEitherWay(h, k);
      if k > 0 && h[k].at <= h[Parent(k)].at {
        RaiseInPrefix(|h|, k, S);
      } else {
        SinkSorts(h, k);
        SinkPermutes(h, k);
        DownHeap(k, S);
      }
    }

    /** Makes a heap out of any contents. */
    method ReHeap(ghost S: set<Watcher>)
      requires Indexed(S)
      modifies this, S`active
      ensures Permuted(h, old(h)) && Ordered(h, |h|) && Indexed(S)
    {
      for i := 0 to |h|
        invariant |h| == |old(h)| && Ordered(h, i) && Permuted(h, old(h)) && Indexed(S)
      {
        IndexedIsHoled(i, S);
        RaiseInPrefix(i + 1, i, S);
      }
    }

    /** What the sifting operations leave is a valid heap of the same watchers. */
    lemma Settled(g: seq<Anhe>, S: set<Watcher>)
      requires Permuted(h, g) && Ordered(h, |h|) && Indexed(S)
      requires forall i :: 0 <= i < |g| ==> g[i].at == g[i].w.at
      ensures Valid() && Ws() == Watchers(g)
    {
      PermutedIn(h, g);
      assert forall i :: 0 <= i < |h| ==> h[i] in g;
      assert forall i :: 0 <= i < |g| ==> g[i] in h;
    }

    /** The tail of ev_timer_start and ev_periodic_start. */
    method Insert(w: Watcher)
      requires Valid() && w !in Ws()
      modifies this, Ws()`active, w`active
      ensures Valid() && Ws() == old(Ws()) + {w}
    {
      ghost var S := Ws() + {w};
      Append(w, S);
      ghost var g := h;
      RaiseInPrefix(|h|, w.active - HEAP0, S);
      Settled(g, S);
    }

    method Append(w: Watcher, ghost S: set<Watcher>)
      requires Valid() && w !in Ws() && S == Ws() + {w}
      modifies this, w`active
      ensures h == old(h) + [Anhe(w.at, w)] && w.active == |h| - 1 + HEAP0
      ensures Cached() && Ws() == S
      ensures Holed(|h| - 1, h[|h| - 1], S) && MayRise(h, |h|, |h| - 1)
    {
      w.active := |h| + HEAP0;
      WatchersOfAppend(h, Anhe(w.at, w));
      h := h + [Anhe(w.at, w)];
    }

    lemma ValidIsApart()
      requires Valid()
      ensures Apart(h)
    {
    }

    /** The heap part of ev_timer_stop and ev_periodic_stop.  The watcher's own
        `active` field is left for ev_stop to clear. */
    method Remove(w: Watcher)
      requires Valid() && w in Ws()
      modifies this, (Ws() - {w})`active
      ensures Valid() && Ws() == old(Ws()) - {w}
    {
      ghost var S := Ws() - {w};
      var k := w.active - HEAP0;
      CutOut(w, k, S);
      if k < |h| {
        ghost var g := h;
        AdjustHeap(k, S);
        Settled(g, S);
      }
    }

    method CutOut(w: Watcher, k: nat, ghost S: set<Watcher>)
      requires Valid() && w in Ws() && k == w.active - HEAP0 && S == Ws() - {w}
      modifies this
      ensures h == Removed(old(h), k) && Ws() == S && Cached()
      ensures if k < |h| then Holed(k, h[k], S) && Misplaced(h, k) else Valid()
    {
      ValidIsApart();
      WatchersOfRemoved(h, k);
      if k < |h| - 1 {
        RemovedIsMisplaced(h, k);
        h := h[..|h| - 1][k := h[|h| - 1]];
      } else {
        h := h[..|h| - 1];
      }
    }

    /** Valid but for the cached time of w, which has just been given a new expiry. */
    ghost predicate StaleAt(w: Watcher)
      reads this, Ws()`active, Ws()`at
    {
      && Ordered(h, |h|) && Indexed(Ws()) && w in Ws()
      && forall i :: 0 <= i < |h| && h[i].w != w ==> h[i].at == h[i].w.at
    }

    /** Caches the new expiry of w and repairs its place: the tail of
        ev_timer_again, and (at the root) of the reify loops. */
    method Refresh(w: Watcher)
      requires StaleAt(w)
      modifies this, Ws()`active
      ensures Valid() && Ws() == old(Ws())
    {
      var k := w.active - HEAP0;
      ghost var S := Ws();
      CacheAt(w, k);
      ghost var g := h;
      AdjustHeap(k, S);
      Settled(g, S);
    }

    method RefreshRoot()
      requires |h| > 0 && StaleAt(h[0].w)
      modifies this, Ws()`active
      ensures Valid() && Ws() == old(Ws())
    {
      ghost var S := Ws();
      CacheAt(h[0].w, 0);
      ghost var g := h;
      SinkSorts(h, 0);
      SinkPermutes(h, 0);
      DownHeap(0, S);
      Settled(g, S);
    }

    method CacheAt(w: Watcher, k: nat)
      requires StaleAt(w) && k == w.active - HEAP0
      modifies this
      ensures k < |h| && Ws() == old(Ws()) && Cached() && Holed(k, h[k], Ws())
      ensures Misplaced(h, k) && (k == 0 ==> MaySink(h, |h|, 0))
    {
      ChangedIsMisplaced(h, k, Anhe(w.at, w));
      h := h[k := Anhe(w.at, w)];
      assert forall i :: 0 <= i < |h| ==> h[i].w == old(h)[i].w;
    }

    /** timers_reschedule: moves every expiry by the same amount, in place. */
    method AddToAll(adjust: real)
      requires Valid()
      modifies this, Ws()`at
      ensures Valid() && Ws() == old(Ws())
      ensures forall w :: w in Ws() ==> w.at == old(w.at) + adjust
    {
      ghost var g, S := h, Ws();
      for i := 0 to |h|
        invariant |h| == |g| && forall j :: 0 <= j < |h| ==> h[j].w == g[j].w
        invariant forall j :: 0 <= j < i ==> h[j].at == g[j].at + adjust == h[j].w.at
        invariant forall j :: i <= j < |h| ==> h[j] == g[j] && h[j].at == h[j].w.at
      {
        assert forall j :: 0 <= j < |h| && j != i ==> h[j].w != h[i].w;
        h[i].w.at := h[i].w.at + adjust;
        h := h[i := Anhe(h[i].w.at, h[i].w)];
      }
      assert Watchers(h) == S;
    }

    /** ANHE_at_cache */
    method Cache(i: nat)
      requires i < |h|
      modifies this
      ensures h == old(h)[i := Anhe(old(h)[i].w.at, old(h)[i].w)]
    {
      h := h[i := Anhe(h[i].w.at, h[i].w)];
    }

    /** The end of periodics_reschedule: rebuilds the heap from any expiries. */
    method Rebuild()
      requires Indexed(Ws()) && Cached()
      modifies this, Ws()`active
      ensures Valid() && Ws() == old(Ws())
    {
      ghost var g, S := h, Ws();
      ReHeap(S);
      Settled(g, S);
    }
  }
}
