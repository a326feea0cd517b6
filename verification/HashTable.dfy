/** The hash table with chained cells and its iterator.  A string is the bytes
    before its terminator; chars from 0x80 on are negative ones. */
module HashTable {
  import opened Options
  import opened Maps

  const HTABLESIZE := 64

  datatype Cell<V> = Cell(key: string, val: V)

  // ---------- hashing ----------

  /** A signed char widened to 32 bits. */
  function Widened(c: char): (b: bv32) {
    var x := c as int % 256;
    if x < 128 then x as bv32 else 0xffffff00 | x as bv32
  }

  /** What the C code calls a rotation to the left. */
  function Shifted(i: bv32): (j: bv32) {
    (i << 1) | (i >> 15)
  }

  ghost predicate Rotates(i: bv32) {
    Shifted(i) == (i << 1) | (i >> 31)
  }

  /** Every bit of the upper half is also set in the lower half, 16 places down,
      and the topmost bits of the two are the same. */
  predicate UpperInLower(i: bv32) {
    (i >> 16) & !i == 0 && (i >> 15) & 1 == i >> 31
  }

  lemma UpperRotates(i: bv32)
    requires UpperInLower(i)
    ensures Rotates(i)
  {
  }

  lemma RotatesUpper(i: bv32)
    requires Rotates(i)
    ensures UpperInLower(i)
  {
  }

  /** The numbers for which it is a rotation. */
  lemma RotatesWhen(i: bv32)
    ensures Rotates(i) <==> UpperInLower(i)
  {
    hide Rotates, UpperInLower;
    if UpperInLower(i) {
      UpperRotates(i);
    }
    if Rotates(i) {
      RotatesUpper(i);
    }
  }

  /** A rotation would keep these two apart. */
  lemma TwoShiftedAlike()
    ensures Shifted(0x8000) == Shifted(0x8000_8000)
  {
  }

  /** Characters from 0x80 on are negative. */
  lemma WidenedEnds()
    ensures Widened(0x7f as char) == 0x7f && Widened(0x80 as char) == 0xffff_ff80 && Widened(0xff as char) == 0xffff_ffff
  {
  }

  /** One turn of the loop of ht_hash. */
  function Mixed(i: bv32, c: char): (j: bv32) {
    Shifted(i) ^ Widened(c)
  }

  function HashFrom(i: bv32, key: string): (j: bv32)
    decreases |key|
  {
    if key == [] then i else HashFrom(Mixed(i, key[0]), key[1..])
  }

  lemma {:induction false} HashesOn(i: bv32, s: string, c: char)
    ensures HashFrom(i, s + [c]) == Mixed(HashFrom(i, s), c)
    decreases |s|
  {
    hide Mixed;
    if s == "" {
      assert s + [c] == [c] && [c][1..] == "";
    } else {
      assert (s + [c])[1..] == s[1..] + [c];
      HashesOn(Mixed(i, s[0]), s[1..], c);
    }
  }

  /** Keys that differ in their last character only differ by it before the hash
      is reduced to an index. */
  lemma LastCharDiffers(s: string, c: char, d: char)
    ensures HashFrom(0, s + [c]) ^ HashFrom(0, s + [d]) == Widened(c) ^ Widened(d)
  {
    HashesOn(0, s, c);
    HashesOn(0, s, d);
    XorCancels(Shifted(HashFrom(0, s)), Widened(c), Widened(d));
  }

  lemma XorCancels(i: bv32, x: bv32, y: bv32)
    ensures (i ^ x) ^ (i ^ y) == x ^ y
  {
  }

  function Hash(key: string): (h: nat)
    ensures h < HTABLESIZE
  {
    HashFrom(0, key) as int % HTABLESIZE
  }

  /** ht_hash */
  method HtHash(key: string) returns (hash: nat)
    ensures hash == Hash(key)
  {
    hide Mixed;
    var i: bv32 := 0;
    var k := 0;
    assert key[0..] == key;
    while k < |key|
      invariant k <= |key| && HashFrom(i, key[k..]) == HashFrom(0, key)
    {
      assert key[k..][1..] == key[k + 1..];
      i := Mixed(i, key[k]);
      k := k + 1;
    }
    hash := i as int % HTABLESIZE;
  }

  // ---------- chains ----------

  function Find<V>(chain: seq<Cell<V>>, k: string): (r: Option<V>) {
    if chain == [] then None else if chain[0].key == k then Some(chain[0].val) else Find(chain[1..], k)
  }

  ghost predicate KeysDiffer<V>(chain: seq<Cell<V>>) {
    forall i, j :: 0 <= i < j < |chain| ==> chain[i].key != chain[j].key
  }

  /** The place of a key in a chain, or its length. */
  ghost predicate Placed<V>(chain: seq<Cell<V>>, k: string, i: nat) {
    i <= |chain| && (forall j :: 0 <= j < i ==> chain[j].key != k) && (i < |chain| ==> chain[i].key == k)
  }

  lemma {:induction false} FindAt<V>(chain: seq<Cell<V>>, k: string, i: nat)
    requires Placed(chain, k, i)
    ensures Find(chain, k) == if i < |chain| then Some(chain[i].val) else None
  {
    if i > 0 {
      FindAt(chain[1..], k, i - 1);
    }
  }

  lemma {:induction false} Place<V>(chain: seq<Cell<V>>, k: string) returns (i: nat)
    ensures Placed(chain, k, i)
  {
    if chain == [] || chain[0].key == k {
      i := 0;
    } else {
      i := Place(chain[1..], k);
      assert forall j :: 1 <= j < i + 1 ==> chain[j] == chain[1..][j - 1];
      i := i + 1;
    }
  }

  // ---------- tables ----------

  type Table<V> = t: seq<seq<Cell<V>>> | |t| == HTABLESIZE
    ghost witness seq(HTABLESIZE, _ => [])

  /** Every cell is in the chain of its key, and no key twice. */
  ghost predicate Sound<V>(t: Table<V>) {
    forall i :: 0 <= i < HTABLESIZE ==> KeysDiffer(t[i]) && forall c :: c in t[i] ==> Hash(c.key) == i
  }

  /** What the table maps a key to. */
  ghost function Value<V>(t: Table<V>, k: string): (r: Option<V>) {
    Find(t[Hash(k)], k)
  }

  ghost function Keys<V>(t: Table<V>): (ks: set<string>) {
    set i, c | 0 <= i < HTABLESIZE && c in t[i] :: c.key
  }

  ghost function Bindings<V>(t: Table<V>): (m: map<string, V>)
    requires Sound(t)
    ensures forall k :: k in m <==> Value(t, k).Some?
    ensures forall k :: k in m ==> m[k] == Value(t, k).value
  {
    KeysAreFound(t);
    MapOf(Keys(t), k requires Value(t, k).Some? => Value(t, k).value)
  }

  lemma KeysAreFound<V>(t: Table<V>)
    requires Sound(t)
    ensures forall k :: k in Keys(t) <==> Value(t, k).Some?
  {
    forall k ensures k in Keys(t) <==> Value(t, k).Some? {
      var i := Place(t[Hash(k)], k);
      FindAt(t[Hash(k)], k, i);
      if i < |t[Hash(k)]| {
        assert t[Hash(k)][i] in t[Hash(k)];
      }
    }
  }

  /** Tables that agree on all keys but one. */
  lemma BindingsBy<V>(t: Table<V>, u: Table<V>, k: string, v: Option<V>)
    requires Sound(t) && Sound(u) && forall x :: Value(u, x) == if x == k then v else Value(t, x)
    ensures Bindings(u) == if v.Some? then Bindings(t)[k := v.value] else Bindings(t) - {k}
  {
    hide Sound, Value;
    assert Value(u, k) == v;
  }

  /** The table with one chain changed for one key. */
  lemma ChainChanged<V>(t: Table<V>, chain: seq<Cell<V>>, k: string, v: Option<V>)
    requires Sound(t) && KeysDiffer(chain) && (forall c :: c in chain ==> Hash(c.key) == Hash(k))
    requires Find(chain, k) == v && forall x :: x != k ==> Find(chain, x) == Find(t[Hash(k)], x)
    ensures var u := t[Hash(k) := chain];
      Sound(u) && Bindings(u) == if v.Some? then Bindings(t)[k := v.value] else Bindings(t) - {k}
  {
    hide Hash, Find, Bindings;
    var u := t[Hash(k) := chain];
    assert Sound(u);
    BindingsBy(t, u, k, v);
  }

  lemma Prepended<V>(chain: seq<Cell<V>>, k: string, v: V)
    requires KeysDiffer(chain) && Placed(chain, k, |chain|)
    ensures var d := [Cell(k, v)] + chain;
      KeysDiffer(d) && Find(d, k) == Some(v) && forall x :: x != k ==> Find(d, x) == Find(chain, x)
  {
    var d := [Cell(k, v)] + chain;
    assert d[1..] == chain;
    assert forall i :: 0 < i < |d| ==> d[i] == chain[i - 1];
  }

  lemma {:induction false} Revalued<V>(chain: seq<Cell<V>>, k: string, v: V, i: nat)
    requires KeysDiffer(chain) && Placed(chain, k, i) && i < |chain|
    ensures var d := chain[i := Cell(k, v)];
      KeysDiffer(d) && Find(d, k) == Some(v) && forall x :: x != k ==> Find(d, x) == Find(chain, x)
  {
    var d := chain[i := Cell(k, v)];
    assert Placed(d, k, i);
    FindAt(d, k, i);
    forall x | x != k ensures Find(d, x) == Find(chain, x) {
      var j := Place(chain, x);
      assert Placed(d, x, j);
      FindAt(chain, x, j);
      FindAt(d, x, j);
    }
  }

  lemma Unlinked<V>(chain: seq<Cell<V>>, k: string, i: nat)
    requires KeysDiffer(chain) && Placed(chain, k, i) && i < |chain|
    ensures var d := chain[..i] + chain[i + 1..];
      KeysDiffer(d) && Find(d, k) == None && forall x :: x != k ==> Find(d, x) == Find(chain, x)
  {
    var d := chain[..i] + chain[i + 1..];
    assert Placed(d, k, |d|);
    FindAt(d, k, |d|);
    forall x | x != k ensures Find(d, x) == Find(chain, x) {
      var j := Place(chain, x);
      FindAt(chain, x, j);
      assert Placed(d, x, if j < i then j else j - 1);
      FindAt(d, x, if j < i then j else j - 1);
    }
  }

  // ---------- ignoring case ----------

  function ToLower(c: char): (d: char) {
    if 'A' <= c <= 'Z' then c - 'A' + 'a' else c
  }

  /** The capital letters become small ones, and nothing else changes. */
  lemma ToLowerIs(i: nat, c: char)
    requires i < 26
    ensures ToLower("ABCDEFGHIJKLMNOPQRSTUVWXYZ"[i]) == "abcdefghijklmnopqrstuvwxyz"[i]
    ensures c !in "ABCDEFGHIJKLMNOPQRSTUVWXYZ" ==> ToLower(c) == c
  {
    assert 'A' <= c <= 'Z' ==> c == "ABCDEFGHIJKLMNOPQRSTUVWXYZ"[c as int - 'A' as int];
  }

  function Lower(s: string): (t: string)
    ensures |t| == |s|
  {
    seq(|s|, i requires 0 <= i < |s| => ToLower(s[i]))
  }

  predicate IsLower(s: string) {
    Lower(s) == s
  }

  lemma LowerIsLower(s: string)
    ensures IsLower(Lower(s))
  {
  }

  /** The first cell whose key is the same but for case. */
  function FindIgnoringCase<V>(chain: seq<Cell<V>>, k: string): (r: Option<V>) {
    if chain == [] then None
    else if Lower(chain[0].key) == Lower(k) then Some(chain[0].val)
    else FindIgnoringCase(chain[1..], k)
  }

  lemma {:induction false} FindLower<V>(chain: seq<Cell<V>>, k: string)
    requires IsLower(k) && forall c :: c in chain ==> IsLower(c.key)
    ensures FindIgnoringCase(chain, k) == Find(chain, k)
  {
    if chain != [] {
      FindLower(chain[1..], k);
    }
  }

  /** What ht_lowcase_get gives. */
  ghost function LowcaseValue<V>(t: Table<V>, k: string): (r: Option<V>) {
    FindIgnoringCase(t[Hash(Lower(k))], Lower(k))
  }

  /** In a table of lower-case keys that is the value of the lower-cased key. */
  lemma LowcaseAgrees<V>(t: Table<V>, k: string)
    requires Sound(t) && forall x :: x in Keys(t) ==> IsLower(x)
    ensures LowcaseValue(t, k) == Value(t, Lower(k))
  {
    LowerIsLower(k);
    var chain := t[Hash(Lower(k))];
    forall c | c in chain ensures IsLower(c.key) {
      assert c.key in Keys(t);
    }
    FindLower(chain, Lower(k));
  }

  // ---------- all cells ----------

  /** The cells from one chain on. */
  ghost function CellsFrom<V>(t: Table<V>, i: nat): (cs: seq<Cell<V>>)
    requires i <= HTABLESIZE
    decreases HTABLESIZE - i
  {
    if i == HTABLESIZE then [] else t[i] + CellsFrom(t, i + 1)
  }

  /** The cell is in the chain of its key, which is not before chain i. */
  ghost predicate InChain<V>(t: Table<V>, i: nat, c: Cell<V>) {
    Hash(c.key) >= i && c in t[Hash(c.key)]
  }

  lemma {:induction false} CellsAre<V>(t: Table<V>, i: nat)
    requires Sound(t) && i <= HTABLESIZE
    ensures forall c :: c in CellsFrom(t, i) <==> InChain(t, i, c)
    ensures KeysDiffer(CellsFrom(t, i))
    decreases HTABLESIZE - i
  {
    hide Hash;
    if i < HTABLESIZE {
      CellsAre(t, i + 1);
      var a: seq<Cell<V>>, b: seq<Cell<V>> := t[i], CellsFrom(t, i + 1);
      var all: seq<Cell<V>> := a + b;
      forall m, n | 0 <= m < n < |all| ensures all[m].key != all[n].key {
        if m < |a| <= n {
          var x, y := a[m], b[n - |a|];
          assert x in t[i] && y in CellsFrom(t, i + 1) && InChain(t, i + 1, y);
        }
      }
    }
  }

  /** Enumerating the cells gives every binding, once. */
  lemma CellsAreBindings<V>(t: Table<V>)
    requires Sound(t)
    ensures KeysDiffer(CellsFrom(t, 0))
    ensures forall k, v :: Cell(k, v) in CellsFrom(t, 0) <==> k in Bindings(t) && Bindings(t)[k] == v
  {
    CellsAre(t, 0);
    forall k, v ensures Cell(k, v) in CellsFrom(t, 0) <==> Value(t, k) == Some(v) {
      var chain := t[Hash(k)];
      var i := Place(chain, k);
      FindAt(chain, k, i);
      if Cell(k, v) in chain {
        var n :| 0 <= n < |chain| && chain[n] == Cell(k, v);
        assert n == i;
      }
    }
  }

  /** A place in a table: the rest of the chain of an index. */
  datatype Iter<V> = Iter(index: int, ptr: seq<Cell<V>>)

  ghost function Remaining<V>(it: Iter<V>, t: Table<V>): (cs: seq<Cell<V>>)
    requires -1 <= it.index
  {
    it.ptr + if it.index < HTABLESIZE then CellsFrom(t, it.index + 1) else []
  }

  lemma NextChain<V>(t: Table<V>, it: Iter<V>)
    requires -1 <= it.index && it.ptr == []
    ensures it.index + 1 < HTABLESIZE ==> Remaining(it, t) == Remaining(Iter(it.index + 1, t[it.index + 1]), t)
    ensures it.index + 1 >= HTABLESIZE ==> Remaining(it, t) == [] && Remaining(it.(index := it.index + 1), t) == []
  {
  }

  lemma NextCell<V>(t: Table<V>, it: Iter<V>)
    requires -1 <= it.index < HTABLESIZE && it.ptr != []
    ensures Remaining(it, t) != [] && Remaining(it, t)[0] == it.ptr[0]
    ensures Remaining(it.(ptr := it.ptr[1..]), t) == Remaining(it, t)[1..]
  {
  }

  class HtTable<V> {
    const cells: array<seq<Cell<V>>>

    ghost function Contents(): (t: Table<V>)
      requires cells.Length == HTABLESIZE
      reads cells
    {
      cells[..]
    }

    ghost predicate Valid()
      reads cells
    {
      cells.Length == HTABLESIZE && Sound(Contents())
    }

    /** A static table. */
    constructor ()
      ensures Valid() && fresh(cells) && Bindings(Contents()) == map[]
    {
      cells := new seq<Cell<V>>[HTABLESIZE](_ => []);
    }

    /** The loop over a chain: the place of the key. */
    method Search(chain: seq<Cell<V>>, key: string) returns (p: nat)
      ensures Placed(chain, key, p)
    {
      p := 0;
      while p < |chain|
        invariant p <= |chain| && forall j :: 0 <= j < p ==> chain[j].key != key
      {
        if chain[p].key == key {
          return;
        }
        p := p + 1;
      }
    }

    /** ht_get */
    method Get(key: string) returns (val: Option<V>)
      requires Valid()
      ensures val == if key in Bindings(Contents()) then Some(Bindings(Contents())[key]) else None
    {
      var indx := HtHash(key);
      var p := Search(cells[indx], key);
      FindAt(cells[indx], key, p);
      val := if p < |cells[indx]| then Some(cells[indx][p].val) else None;
    }

    /** ht_set */
    method Set(key: string, val: V)
      requires Valid()
      modifies cells
      ensures Valid() && Bindings(Contents()) == old(Bindings(Contents()))[key := val]
    {
      hide Find, Bindings;
      var hash := HtHash(key);
      var chain := cells[hash];
      var p := Search(chain, key);
      if p == |chain| {
        Prepended(chain, key, val);
        ChainChanged(Contents(), [Cell(key, val)] + chain, key, Some(val));
        cells[hash] := [Cell(key, val)] + chain;
      } else {
        Revalued(chain, key, val, p);
        ChainChanged(Contents(), chain[p := Cell(key, val)], key, Some(val));
        cells[hash] := chain[p := Cell(key, val)];
      }
      assert Contents() == old(Contents())[hash := cells[hash]];
    }

    /** ht_del */
    method Del(key: string) returns (r: int)
      requires Valid()
      modifies cells
      ensures Valid() && Bindings(Contents()) == old(Bindings(Contents())) - {key}
      ensures r == if key in old(Bindings(Contents())) then 1 else 0
    {
      hide Bindings;
      var indx := HtHash(key);
      var chain := cells[indx];
      var p := Search(chain, key);
      FindAt(chain, key, p);
      if p == |chain| {
        return 0;
      }
      Unlinked(chain, key, p);
      ChainChanged(Contents(), chain[..p] + chain[p + 1..], key, None);
      cells[indx] := chain[..p] + chain[p + 1..];
      assert Contents() == old(Contents())[indx := cells[indx]];
      r := 1;
    }

    /** ht_lowcase_get, whose buffer has 512 bytes. */
    method LowcaseGet(key: string) returns (val: Option<V>)
      requires Valid() && |key| < 512
      ensures val == LowcaseValue(Contents(), key)
    {
      var b := "";
      while |b| < |key|
        invariant |b| <= |key| && b == Lower(key)[..|b|]
      {
        b := b + [ToLower(key[|b|])];
      }
      assert b == Lower(key);
      var indx := HtHash(b);
      var chain, p := cells[indx], 0;
      assert chain[0..] == chain;
      while p < |chain|
        invariant p <= |chain| && FindIgnoringCase(chain, b) == FindIgnoringCase(chain[p..], b)
      {
        if Lower(chain[p].key) == Lower(b) {
          return Some(chain[p].val);
        }
        assert chain[p..][1..] == chain[p + 1..];
        p := p + 1;
      }
      val := None;
    }

    /** ht_next */
    method Next(ci: Iter<V>) returns (r: Option<Cell<V>>, next: Iter<V>)
      requires Valid() && -1 <= ci.index && (ci.index >= HTABLESIZE ==> ci.ptr == [])
      ensures -1 <= next.index && (next.index >= HTABLESIZE ==> next.ptr == [])
      ensures if Remaining(ci, Contents()) == [] then r == None && Remaining(next, Contents()) == []
              else r == Some(Remaining(ci, Contents())[0]) && Remaining(next, Contents()) == Remaining(ci, Contents())[1..]
    {
      hide Sound, Remaining, CellsFrom;
      next := ci;
      while next.ptr == []
        invariant -1 <= next.index && (next.index >= HTABLESIZE ==> next.ptr == [])
        invariant Remaining(next, Contents()) == Remaining(ci, Contents())
        decreases HTABLESIZE - next.index
      {
        NextChain(Contents(), next);
        next := next.(index := next.index + 1);
        if next.index >= HTABLESIZE {
          return None, next;
        }
        next := next.(ptr := cells[next.index]);
      }
      NextCell(Contents(), next);
      r, next := Some(next.ptr[0]), next.(ptr := next.ptr[1..]);
    }

    /** ht_nullifyiter */
    method NullifyIter() returns (r: Option<Cell<V>>, ci: Iter<V>)
      requires Valid()
      ensures -1 <= ci.index && (ci.index >= HTABLESIZE ==> ci.ptr == [])
      ensures if CellsFrom(Contents(), 0) == [] then r == None
              else r == Some(CellsFrom(Contents(), 0)[0]) && Remaining(ci, Contents()) == CellsFrom(Contents(), 0)[1..]
    {
      assert Remaining(Iter(-1, []), Contents()) == CellsFrom(Contents(), 0);
      r, ci := Next(Iter(-1, []));
    }

    /** The loop over an iterator: all cells, one after the other. */
    method Enumerate() returns (cs: seq<Cell<V>>)
      requires Valid()
      ensures KeysDiffer(cs)
      ensures forall k, v :: Cell(k, v) in cs <==> k in Bindings(Contents()) && Bindings(Contents())[k] == v
    {
      hide CellsFrom, Bindings, Sound, KeysDiffer, Remaining;
      ghost var all := CellsFrom(Contents(), 0);
      var cell, ci := NullifyIter();
      cs := [];
      while cell.Some?
        invariant -1 <= ci.index && (ci.index >= HTABLESIZE ==> ci.ptr == [])
        invariant cs <= all && (cell.None? ==> cs == all)
        invariant cell.Some? ==> |cs| < |all| && cell.value == all[|cs|] && Remaining(ci, Contents()) == all[|cs| + 1..]
        decreases |all| - |cs|
      {
        cs := cs + [cell.value];
        cell, ci := Next(ci);
      }
      CellsAreBindings(Contents());
    }
  }
}
