/** Attribute lists, as used by the parser and by the objects. */
module Attributes {
  import opened Options

  datatype Attr = Attr(key: string, val: string)
  type Attrs = seq<Attr>

  /** The value of the first cell with this key. */
  function Lookup(a: Attrs, k: string): (r: Option<string>) {
    if a == [] then None else if a[0].key == k then Some(a[0].val) else Lookup(a[1..], k)
  }

  /** The bindings of a list. */
  ghost function AsMap(a: Attrs): (m: map<string, string>)
    ensures forall k :: k in m <==> Lookup(a, k).Some?
    ensures forall k :: k in m ==> m[k] == Lookup(a, k).value
  {
    if a == [] then map[] else AsMap(a[1..])[a[0].key := a[0].val]
  }

  ghost predicate DistinctKeys(a: Attrs) {
    forall i, j :: 0 <= i < j < |a| ==> a[i].key != a[j].key
  }

  function SetAttr(a: Attrs, k: string, v: string): (r: Attrs) {
    if Lookup(a, k).Some? then Replaced(a, k, v) else [Attr(k, v)] + a
  }

  function Replaced(a: Attrs, k: string, v: string): (r: Attrs) {
    if a == [] then [] else if a[0].key == k then [Attr(k, v)] + a[1..] else [a[0]] + Replaced(a[1..], k, v)
  }

  function DelAttr(a: Attrs, k: string): (r: Attrs) {
    if a == [] then [] else if a[0].key == k then a[1..] else [a[0]] + DelAttr(a[1..], k)
  }

  lemma {:induction false} LookupIs(a: Attrs, k: string)
    ensures Lookup(a, k).None? <==> forall i :: 0 <= i < |a| ==> a[i].key != k
  {
    if a != [] {
      LookupIs(a[1..], k);
      assert forall i :: 0 < i < |a| ==> a[i] == a[1..][i - 1];
    }
  }

  /** Setting an attribute updates that one binding and keeps the keys distinct. */
  lemma {:induction false} SetAttrUpdates(a: Attrs, k: string, v: string)
    ensures AsMap(SetAttr(a, k, v)) == AsMap(a)[k := v]
    ensures DistinctKeys(a) ==> DistinctKeys(SetAttr(a, k, v))
  {
    if Lookup(a, k).Some? {
      ReplacedIs(a, k, v);
    } else {
      LookupIs(a, k);
      assert ([Attr(k, v)] + a)[1..] == a;
    }
  }

  lemma {:induction false} ReplacedIs(a: Attrs, k: string, v: string)
    requires Lookup(a, k).Some?
    ensures AsMap(Replaced(a, k, v)) == AsMap(a)[k := v]
    ensures |Replaced(a, k, v)| == |a| && forall i :: 0 <= i < |a| ==> Replaced(a, k, v)[i].key == a[i].key
  {
    var r := Replaced(a, k, v);
    if a[0].key == k {
      assert r[1..] == a[1..];
    } else {
      ReplacedIs(a[1..], k, v);
      assert r[1..] == Replaced(a[1..], k, v);
    }
  }

  lemma {:induction false} DelAttrKeeps(a: Attrs, k: string)
    requires DistinctKeys(a)
    ensures DistinctKeys(DelAttr(a, k)) && forall x :: x in DelAttr(a, k) ==> x in a
  {
    if a != [] && a[0].key != k {
      DelAttrKeeps(a[1..], k);
      ConsDistinct(a[0], DelAttr(a[1..], k));
    }
  }

  lemma ConsDistinct(x: Attr, a: Attrs)
    requires DistinctKeys(a) && forall y :: y in a ==> y.key != x.key
    ensures DistinctKeys([x] + a)
  {
    assert forall i :: 0 < i < |[x] + a| ==> ([x] + a)[i] == a[i - 1] && a[i - 1] in a;
  }

  /** Deleting an attribute removes that one binding. */
  lemma {:induction false} DelAttrRemoves(a: Attrs, k: string)
    requires DistinctKeys(a)
    ensures AsMap(DelAttr(a, k)) == AsMap(a) - {k}
  {
    if a != [] {
      var r := DelAttr(a, k);
      if a[0].key == k {
        LookupIs(a[1..], k);
      } else {
        DelAttrRemoves(a[1..], k);
        assert r[1..] == DelAttr(a[1..], k);
      }
    }
  }

  // ---------- the loops ----------

  /** get_attr_cell: the index of the cell, or the length of the list. */
  method GetAttrCell(a: Attrs, k: string) returns (i: nat)
    ensures i <= |a| && (forall j :: 0 <= j < i ==> a[j].key != k) && (i < |a| ==> a[i].key == k)
  {
    i := 0;
    while i < |a| && a[i].key != k
      invariant i <= |a| && forall j :: 0 <= j < i ==> a[j].key != k
    {
      i := i + 1;
    }
  }

  /** What the functions do around the first cell with a key. */
  lemma {:induction false} AtCell(a: Attrs, k: string, v: string, i: nat)
    requires i <= |a| && (forall j :: 0 <= j < i ==> a[j].key != k) && (i < |a| ==> a[i].key == k)
    ensures Lookup(a, k) == if i < |a| then Some(a[i].val) else None
    ensures i < |a| ==> Replaced(a, k, v) == a[i := Attr(k, v)] && DelAttr(a, k) == a[..i] + a[i + 1..]
    ensures i == |a| ==> DelAttr(a, k) == a
  {
    if i > 0 {
      AtCell(a[1..], k, v, i - 1);
      assert a == [a[0]] + a[1..];
    }
  }

  /** setattr; no value deletes the attribute. */
  method SetAttrIn(k: string, v: Option<string>, a: Attrs) returns (r: Attrs)
    ensures r == if v.Some? then SetAttr(a, k, v.value) else DelAttr(a, k)
  {
    if v.None? {
      r := DelAttrIn(k, a);
      return;
    }
    var i := GetAttrCell(a, k);
    AtCell(a, k, v.value, i);
    if i == |a| {
      r := [Attr(k, v.value)] + a;
    } else {
      r := a[i := Attr(k, v.value)];
    }
  }

  /** getattr */
  method GetAttr(k: string, a: Attrs) returns (v: Option<string>)
    ensures v == Lookup(a, k)
  {
    var i := GetAttrCell(a, k);
    AtCell(a, k, "", i);
    v := if i < |a| then Some(a[i].val) else None;
  }

  /** delattr */
  method DelAttrIn(k: string, a: Attrs) returns (r: Attrs)
    ensures r == DelAttr(a, k)
  {
    var p := 0;
    while p < |a|
      invariant p <= |a| && forall j :: 0 <= j < p ==> a[j].key != k
    {
      if a[p].key == k {
        AtCell(a, k, "", p);
        return a[..p] + a[p + 1..];
      }
      p := p + 1;
    }
    AtCell(a, k, "", p);
    r := a;
  }
}
