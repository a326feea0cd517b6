/** The attributes of an element as they are printed and in other spellings, and
    what comes back of them. */
module XmlRoundTrip {
  import opened Options
  import opened Sequences
  import opened Attributes
  import opened XmlTree
  import opened XmlParser
  import opened XmlRuns
  import opened XmlTags

  // ---------- what is accepted ----------

  ghost predicate KeyOk(k: string) {
    k != "" && StartsName(k[0]) && forall c :: c in k ==> InKey(c)
  }

  ghost predicate ValueOk(v: string) {
    '\'' !in v && NUL !in v
  }

  ghost predicate AttrsOk(a: Attrs) {
    DistinctKeys(a) && forall i :: 0 <= i < |a| ==> KeyOk(a[i].key) && ValueOk(a[i].val)
  }

  // ---------- what comes back ----------

  ghost function Effective(a: Attrs, held: string): (r: Attrs)
    ensures |r| == |a|
    decreases |a|
  {
    if a == [] then [] else var v := Kept(a[0].val, held); [Attr(a[0].key, v)] + Effective(a[1..], v)
  }

  ghost function LastHeld(a: Attrs, held: string): (r: string)
    decreases |a|
  {
    if a == [] then held else LastHeld(a[1..], Kept(a[0].val, held))
  }

  /** The attributes reported for an element, and what is held afterwards. */
  ghost function After(a: Attrs, c: Carry): (r: Carry) {
    if a == [] then c else Carry(Reversed(Effective(a, c.held)), LastHeld(a, c.held))
  }

  lemma {:induction false} EffectiveKeys(a: Attrs, held: string)
    ensures forall i :: 0 <= i < |a| ==> Effective(a, held)[i].key == a[i].key
    decreases |a|
  {
    if a != [] {
      EffectiveKeys(a[1..], Kept(a[0].val, held));
    }
  }

  lemma AllSet(a: Attrs, held: string)
    requires DistinctKeys(a)
    ensures SetAll([], Effective(a, held)) == Reversed(Effective(a, held))
  {
    EffectiveKeys(a, held);
    SetAllReverses([], Effective(a, held));
  }

  /** These items spell the attributes a, with any quotes or none, and blanks
      wherever there may be some. */
  ghost predicate Spell(xs: seq<Item>, a: Attrs) {
    |xs| == |a| && forall i :: 0 <= i < |a| ==>
      xs[i].Attribute? && KeyOf(xs[i].key) == a[i].key && Says(xs[i].value) == a[i].val
  }

  lemma {:induction false} SpellSets(xs: seq<Item>, a: Attrs, acc: Attrs, held: string)
    requires Spell(xs, a)
    ensures AfterItems(xs, Memo(acc, held, None)) == Memo(SetAll(acc, Effective(a, held)), LastHeld(a, held), None)
    decreases |a|
  {
    if a != [] {
      hide SetAttr;
      var v := Kept(a[0].val, held);
      assert xs[0].Attribute?;
      SpellSets(xs[1..], a[1..], SetAttr(acc, a[0].key, v), v);
      assert Effective(a, held)[1..] == Effective(a[1..], v);
    }
  }

  /** In any spelling the same comes back. */
  lemma SpellMeans(lead: string, xs: seq<Item>, a: Attrs, c: Carry)
    requires Spell(xs, a) && DistinctKeys(a) && (lead == "" <==> a == [])
    ensures AfterTag(lead, xs, c) == After(a, c)
  {
    if a != [] {
      SpellSets(xs, a, [], c.held);
      AllSet(a, c.held);
    }
  }

  // ---------- as they are printed ----------

  function Printed(a: Attrs): (xs: seq<Item>)
    ensures |xs| == |a|
  {
    if a == [] then [] else
    [Attribute(a[0].key, "", "", Quoted('\'', a[0].val, ""), if |a| == 1 then "" else " ")] + Printed(a[1..])
  }

  function PrintedLead(a: Attrs): (s: string) {
    if a == [] then "" else " "
  }

  lemma PrintedItem(k: string, v: string, gap: string)
    ensures ItemText(Attribute(k, "", "", Quoted('\'', v, ""), gap)) == k + "='" + v + "'" + gap
  {
    assert ['\''] == "'";
    assert k + "" + "=" + "" + (['\''] + v + ['\''] + "") == k + "='" + v + "'";
  }

  lemma {:induction false} PrintedText(a: Attrs)
    ensures PrintedLead(a) + ItemsText(Printed(a)) == AttrText(a)
    decreases |a|
  {
    if a != [] {
      var gap := if |a| == 1 then "" else " ";
      var x := Attribute(a[0].key, "", "", Quoted('\'', a[0].val, ""), gap);
      PrintedText(a[1..]);
      PrintedItem(a[0].key, a[0].val, gap);
      hide ItemText;
      assert Printed(a)[0] == x && Printed(a)[1..] == Printed(a[1..]);
      JoinText(a[0].key + "='" + a[0].val + "'", gap, ItemsText(Printed(a[1..])));
      assert " " + (a[0].key + "='" + a[0].val + "'") == " " + a[0].key + "='" + a[0].val + "'";
    }
  }

  lemma JoinText(s: string, gap: string, t: string)
    ensures " " + (s + gap + t) == " " + s + (gap + t)
  {
    Grouped(s, gap, t);
    Grouped(" ", s, gap + t);
  }

  lemma PlainKey(k: string)
    requires KeyOk(k)
    ensures KeyFits(k) && KeyOf(k) == k
  {
    KeyOfKey(k);
  }

  lemma {:induction false} PrintedFits(a: Attrs)
    requires forall i :: 0 <= i < |a| ==> KeyOk(a[i].key) && ValueOk(a[i].val)
    ensures ItemsFit(Printed(a))
    decreases |a|
  {
    if a != [] {
      PlainKey(a[0].key);
      hide KeyOk, KeyFits;
      PrintedFits(a[1..]);
      assert Printed(a)[1..] == Printed(a[1..]);
      assert ItemFits(Printed(a)[0]);
    }
  }

  lemma {:induction false} PrintedSpells(a: Attrs)
    requires forall i :: 0 <= i < |a| ==> KeyOk(a[i].key)
    ensures Spell(Printed(a), a)
    decreases |a|
  {
    if a != [] {
      PlainKey(a[0].key);
      PrintedSpells(a[1..]);
      var xs := Printed(a);
      forall i | 0 <= i < |a| ensures xs[i].Attribute? && KeyOf(xs[i].key) == a[i].key && Says(xs[i].value) == a[i].val {
        if i > 0 {
          assert xs[i] == Printed(a[1..])[i - 1] && a[i] == a[1..][i - 1];
        }
      }
    }
  }
}
