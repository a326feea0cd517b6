/** What the parser makes of tags, in every spelling that it accepts. */
module XmlTags {
  import opened Options
  import opened Attributes
  import opened XmlParser
  import opened XmlRuns

  // ---------- how attributes are spelled ----------

  /** In quotes of either kind, where more characters may follow the closing
      quote, or without quotes. */
  datatype Value = Quoted(q: char, text: string, tail: string) | Bare(text: string)

  /** What may stand in a tag after its name, with the blanks that follow; a key
      without a value, and one that breaks off after its equals sign. */
  datatype Item =
    | Attribute(key: string, before: string, after: string, value: Value, gap: string)
    | Flag(key: string, gap: string)
    | Unfinished(key: string, before: string, after: string)

  function ValueText(v: Value): (s: string) {
    match v
    case Quoted(q, text, tail) => [q] + text + [q] + tail
    case Bare(text) => text
  }

  function ItemText(x: Item): (s: string) {
    match x
    case Attribute(key, before, after, value, gap) => key + before + "=" + after + ValueText(value) + gap
    case Flag(key, gap) => key + gap
    case Unfinished(key, before, after) => key + before + "=" + after
  }

  function ItemsText(xs: seq<Item>): (s: string) {
    if xs == [] then "" else ItemText(xs[0]) + ItemsText(xs[1..])
  }

  /** What a value says. */
  function Says(v: Value): (s: string) {
    match v
    case Quoted(_, text, tail) => text + tail
    case Bare(text) => text
  }

  ghost predicate ValueFits(v: Value) {
    match v
    case Quoted(q, text, tail) =>
      (q == '\'' || q == '"') && q !in text && NUL !in text && forall c :: c in tail ==> StartsName(c)
    case Bare(text) => text != "" && InKey(text[0]) && forall c :: c in text[1..] ==> StartsName(c)
  }

  ghost predicate KeyFits(k: string) {
    k != "" && StartsName(k[0]) && forall c :: c in k ==> c != '=' && !IsSpace(c)
  }

  ghost predicate ItemFits(x: Item) {
    KeyFits(x.key) &&
    match x
    case Attribute(_, before, after, value, gap) => Blanks(before) && Blanks(after) && ValueFits(value) && Blanks(gap)
    case Flag(_, gap) => gap != "" && Blanks(gap)
    case Unfinished(_, before, after) => Blanks(before) && Blanks(after)
  }

  /** Another item may follow. */
  predicate Separated(x: Item) {
    !x.Unfinished? && x.gap != ""
  }

  ghost predicate ItemsFit(xs: seq<Item>) {
    xs == [] || (ItemFits(xs[0]) && (|xs| > 1 ==> Separated(xs[0])) && ItemsFit(xs[1..]))
  }

  // ---------- what they mean ----------

  /** An empty value leaves in place what the register held before. */
  function Kept(v: string, held: string): (r: string) {
    if v == "" then held else v
  }

  /** After some items: the attributes set, the value read last, and a key
      without a value, if one came last. */
  datatype Memo = Memo(attrs: Attrs, held: string, flag: Option<string>)

  /** A key without a value unsets its attribute as the next key begins. */
  function NextKey(m: Memo): (a: Attrs) {
    match m.flag
    case None => m.attrs
    case Some(k) => DelAttr(m.attrs, k)
  }

  function AfterItem(x: Item, m: Memo): (r: Memo) {
    match x
    case Attribute(key, _, _, value, _) =>
      var v := Kept(Says(value), m.held);
      Memo(SetAttr(NextKey(m), KeyOf(key), v), v, None)
    case Flag(key, _) => Memo(NextKey(m), m.held, Some(KeyOf(key)))
    case Unfinished(_, _, _) => Memo(NextKey(m), m.held, None)
  }

  function AfterItems(xs: seq<Item>, m: Memo): (r: Memo) {
    if xs == [] then m else AfterItems(xs[1..], AfterItem(xs[0], m))
  }

  // ---------- where the parser is ----------

  /** Before a key. */
  ghost predicate Between(p: Parser, n: string, m: Memo) {
    && p.ctx == InAttr && p.stack == [] && p.r0.written == n && p.attrs == m.attrs
    && p.r2.written == [] && p.r2.Value() == m.held
    && match m.flag
       case None => (p.cr1 == Ini || p.cr1 == Opening) && p.r1.written == []
       case Some(k) => p.cr1 == WantVal && p.r1.Value() == k
  }

  /** In a key. */
  ghost predicate AtKey(p: Parser, n: string, attrs: Attrs, held: string, k: string) {
    && p.ctx == InAttr && p.cr1 == Key && p.stack == [] && p.r0.written == n && p.attrs == attrs
    && p.r1.written == k && p.r2.written == [] && p.r2.Value() == held
  }

  /** Before a value. */
  ghost predicate AtValue(p: Parser, n: string, attrs: Attrs, held: string, k: string) {
    && p.ctx == InAttr && p.cr1 == Val && p.stack == [] && p.r0.written == n && p.attrs == attrs
    && p.r1.written == k && p.r2.written == [] && p.r2.Value() == held
  }

  /** After a value, whose attribute is set by the next character. */
  ghost predicate Pending(p: Parser, n: string, attrs: Attrs, held: string) {
    && p.ctx == InAttr && p.cr1 == Lav && p.stack == [] && p.r0.written == n
    && SetAttr(p.attrs, p.r1.Value(), p.r2.Value()) == attrs && p.r2.Value() == held
  }

  /** In an opening tag after its name. */
  ghost predicate Named(p: Parser, n: string, attrs: Attrs, held: string) {
    && p.ctx == InTag && p.cr1 == Opening && p.stack == [] && p.r0.written == n
    && p.attrs == attrs && p.r2.Value() == held
  }

  /** Among the attributes, with none that is still to be set. */
  ghost predicate Loose(p: Parser, n: string, attrs: Attrs, held: string) {
    && p.ctx == InAttr && (p.cr1 == Ini || p.cr1 == Opening || p.cr1 == WantVal || p.cr1 == Val) && p.stack == []
    && p.r0.written == n && p.attrs == attrs && p.r2.Value() == held
  }

  /** What the parser holds between elements: the attributes it reported last
      and the value it read last. */
  datatype Carry = Carry(attrs: Attrs, held: string)

  /** Where an opening tag may end. */
  ghost predicate Tagged(p: Parser, n: string, c: Carry) {
    Named(p, n, c.attrs, c.held) || Pending(p, n, c.attrs, c.held) || Loose(p, n, c.attrs, c.held)
  }

  /** Between two pieces of the text. */
  ghost predicate AtRest(p: Parser, c: Carry) {
    && p.ctx == InTxt && p.cr1 == Ini && p.stack == [] && p.r0.written == [] && !p.g2
    && p.attrs == c.attrs && p.r2.Value() == c.held
  }

  lemma WordValue(s: string)
    requires forall c :: c in s ==> InName(c)
    ensures CString(s) == s
  {
    assert !InName(NUL);
    NoNulInside(s);
  }

  // ---------- keys ----------

  lemma KeyBegins(p: Parser, n: string, m: Memo, c: char) returns (q: Parser)
    requires Between(p, n, m) && StartsName(c)
    ensures Goes(p, [c], q, []) && AtKey(q, n, NextKey(m), m.held, [c])
  {
    hide DelAttr;
    One(p, c);
    q := Step(p, c).p;
  }

  lemma RunKeyText(p: Parser, n: string, m: Memo, k: string) returns (q: Parser)
    requires Between(p, n, m) && KeyFits(k)
    ensures Goes(p, k, q, []) && AtKey(q, n, NextKey(m), m.held, KeyOf(k)) && KeyOf(k) != ""
  {
    hide Goes, Between, Step, IsSpace;
    var p1 := KeyBegins(p, n, m, k[0]);
    assert forall c :: c in k[1..] ==> c in k;
    RunKey(p1, k[1..]);
    q := p1.(r1 := Reg(p1.r1.stale, p1.r1.written + KeyOf(k[1..])));
    Quietly(p, [k[0]], p1, k[1..], q);
    assert [k[0]] + k[1..] == k;
  }

  lemma BlankEndsKey(p: Parser, n: string, attrs: Attrs, held: string, k: string, c: char)
    requires AtKey(p, n, attrs, held, k) && IsSpace(c)
    ensures Goes(p, [c], p.(cr1 := WantVal), [])
  {
    One(p, c);
  }

  /** Blanks after a key. */
  lemma RunKeyGap(p: Parser, n: string, attrs: Attrs, held: string, k: string, gap: string)
    requires AtKey(p, n, attrs, held, k) && Blanks(gap) && gap != ""
    ensures Goes(p, gap, p.(cr1 := WantVal), [])
  {
    hide Goes, Step, IsSpace;
    BlankEndsKey(p, n, attrs, held, k, gap[0]);
    assert forall c :: c in gap[1..] ==> c in gap;
    RunBlanks(p.(cr1 := WantVal), gap[1..]);
    Quietly(p, [gap[0]], p.(cr1 := WantVal), gap[1..], p.(cr1 := WantVal));
    assert [gap[0]] + gap[1..] == gap;
  }

  lemma FlagEnds(p: Parser, n: string, attrs: Attrs, held: string, k: string, gap: string) returns (q: Parser)
    requires AtKey(p, n, attrs, held, KeyOf(k)) && KeyOf(k) != "" && Blanks(gap) && gap != ""
    ensures Goes(p, gap, q, []) && Between(q, n, Memo(attrs, held, Some(KeyOf(k))))
  {
    hide Goes;
    RunKeyGap(p, n, attrs, held, KeyOf(k), gap);
    KeyOfKey(k);
    WordValue(KeyOf(k));
    q := p.(cr1 := WantVal);
  }

  lemma EqualsSign(p: Parser)
    requires p.ctx == InAttr && (p.cr1 == Key || p.cr1 == WantVal)
    ensures Goes(p, "=", p.(cr1 := Val), [])
  {
    One(p, '=');
  }

  lemma RunEquals(p: Parser, n: string, attrs: Attrs, held: string, k: string, before: string, after: string)
    returns (q: Parser)
    requires AtKey(p, n, attrs, held, k) && Blanks(before) && Blanks(after)
    ensures Goes(p, before + "=" + after, q, []) && AtValue(q, n, attrs, held, k)
  {
    hide Goes, Step, Blanks;
    var p1 := p;
    if before != "" {
      RunKeyGap(p, n, attrs, held, k, before);
      p1 := p.(cr1 := WantVal);
    } else {
      GoNowhere(p);
    }
    EqualsSign(p1);
    q := p1.(cr1 := Val);
    Quietly(p, before, p1, "=", q);
    RunBlanks(q, after);
    Quietly(p, before + "=", q, after, q);
  }

  lemma GoNowhere(p: Parser)
    ensures Goes(p, "", p, [])
  {
  }

  // ---------- values ----------

  lemma QuoteBegins(p: Parser, q: char)
    requires p.ctx == InAttr && p.cr1 == Val && p.stack == [] && (q == '\'' || q == '"')
    ensures Goes(p, [q], p.(g1 := q, cr1 := Lav, r2 := p.r2.Cleared(), g2 := true, ctx := Idle, stack := [InAttr]), [])
  {
    assert [InAttr] + p.stack == [InAttr];
    One(p, q);
  }

  lemma QuoteEnds(p: Parser)
    requires p.ctx == Idle && p.stack == [InAttr]
    ensures Goes(p, [p.g1], p.(ctx := InAttr, stack := []), [])
  {
    One(p, p.g1);
  }

  /** A value between quotes of either kind holds whatever stands between them,
      the other quotes included. */
  lemma RunQuoted(p: Parser, n: string, attrs: Attrs, held: string, k: string, v: Value) returns (q: Parser)
    requires AtValue(p, n, attrs, held, k) && ValueFits(v) && v.Quoted? && CString(k) == k != ""
    ensures Goes(p, [v.q] + v.text + [v.q] + v.tail, q, [])
    ensures Pending(q, n, SetAttr(attrs, k, Kept(Says(v), held)), Kept(Says(v), held))
  {
    hide Goes, Step, SetAttr;
    var p1 := p.(g1 := v.q, cr1 := Lav, r2 := p.r2.Cleared(), g2 := true, ctx := Idle, stack := [InAttr]);
    QuoteBegins(p, v.q);
    RunValue(p1, v.text);
    var p2 := p1.(r2 := Reg(held, [] + v.text));
    Quietly(p, [v.q], p1, v.text, p2);
    QuoteEnds(p2);
    var p3 := p2.(ctx := InAttr, stack := []);
    Quietly(p, [v.q] + v.text, p2, [v.q], p3);
    RunTail(p3, v.tail);
    q := p3.(r2 := Reg(held, ([] + v.text) + v.tail));
    Quietly(p, [v.q] + v.text + [v.q], p3, v.tail, q);
    assert ([] + v.text) + v.tail == Says(v);
    WholeValue(v);
  }

  lemma WholeValue(v: Value)
    requires ValueFits(v)
    ensures CString(Says(v)) == Says(v)
  {
    if v.Bare? {
      assert v.text == [v.text[0]] + v.text[1..];
    }
    assert !StartsName(NUL) && !InKey(NUL);
    NoNulInside(Says(v));
  }

  lemma BareBegins(p: Parser, c: char)
    requires p.ctx == InAttr && p.cr1 == Val && InKey(c)
    ensures Goes(p, [c], p.(r2 := p.r2.Put(c), cr1 := Lav), [])
  {
    One(p, c);
  }

  /** A value without quotes. */
  lemma RunBare(p: Parser, n: string, attrs: Attrs, held: string, k: string, v: Value) returns (q: Parser)
    requires AtValue(p, n, attrs, held, k) && ValueFits(v) && v.Bare? && CString(k) == k != ""
    ensures Goes(p, v.text, q, []) && Pending(q, n, SetAttr(attrs, k, v.text), v.text)
  {
    hide Goes, Step, SetAttr;
    var p1 := p.(r2 := p.r2.Put(v.text[0]), cr1 := Lav);
    BareBegins(p, v.text[0]);
    RunTail(p1, v.text[1..]);
    q := p1.(r2 := Reg(p.r2.stale, p1.r2.written + v.text[1..]));
    Quietly(p, [v.text[0]], p1, v.text[1..], q);
    assert [v.text[0]] + v.text[1..] == v.text && q.r2.written == v.text;
    WholeValue(v);
  }

  lemma RunValueText(p: Parser, n: string, attrs: Attrs, held: string, k: string, v: Value) returns (q: Parser)
    requires AtValue(p, n, attrs, held, k) && ValueFits(v) && CString(k) == k != ""
    ensures Goes(p, ValueText(v), q, [])
    ensures Pending(q, n, SetAttr(attrs, k, Kept(Says(v), held)), Kept(Says(v), held))
  {
    hide Goes, Pending, AtValue, SetAttr;
    match v
    case Quoted(_, _, _) => q := RunQuoted(p, n, attrs, held, k, v);
    case Bare(_) => q := RunBare(p, n, attrs, held, k, v);
  }

  lemma BlankSets(p: Parser, n: string, attrs: Attrs, held: string, c: char) returns (q: Parser)
    requires Pending(p, n, attrs, held) && IsSpace(c)
    ensures Goes(p, [c], q, []) && Between(q, n, Memo(attrs, held, None)) && q.cr1 == Ini
  {
    hide SetAttr;
    q := p.(attrs := attrs, r1 := p.r1.Cleared(), r2 := p.r2.Cleared(), cr1 := Ini);
    assert !StartsName(c) && Step(p, c) == Turn(q, [], Done);
    One(p, c);
  }

  lemma RunGap(p: Parser, n: string, attrs: Attrs, held: string, gap: string) returns (q: Parser)
    requires Pending(p, n, attrs, held) && Blanks(gap) && gap != ""
    ensures Goes(p, gap, q, []) && Between(q, n, Memo(attrs, held, None))
  {
    hide Goes, Pending, Between, Step, IsSpace;
    q := BlankSets(p, n, attrs, held, gap[0]);
    assert forall c :: c in gap[1..] ==> c in gap;
    InAttrThen(q, n, Memo(attrs, held, None));
    RunBlanks(q, gap[1..]);
    Quietly(p, [gap[0]], q, gap[1..], q);
    assert [gap[0]] + gap[1..] == gap;
  }

  lemma InAttrThen(p: Parser, n: string, m: Memo)
    requires Between(p, n, m)
    ensures p.ctx == InAttr && Loose(p, n, m.attrs, m.held)
  {
  }

  // ---------- items ----------

  lemma RunUpToValue(p: Parser, n: string, m: Memo, x: Item) returns (q: Parser)
    requires Between(p, n, m) && ItemFits(x) && !x.Flag?
    ensures Goes(p, x.key + x.before + "=" + x.after, q, []) && AtValue(q, n, NextKey(m), m.held, KeyOf(x.key))
    ensures CString(KeyOf(x.key)) == KeyOf(x.key) != ""
  {
    hide Goes, Between, KeyFits, Blanks, Step;
    var p1 := RunKeyText(p, n, m, x.key);
    q := RunEquals(p1, n, NextKey(m), m.held, KeyOf(x.key), x.before, x.after);
    Quietly(p, x.key, p1, x.before + "=" + x.after, q);
    assert x.key + (x.before + "=" + x.after) == x.key + x.before + "=" + x.after;
    KeyOfKey(x.key);
    WordValue(KeyOf(x.key));
  }

  lemma RunAttribute(p: Parser, n: string, m: Memo, x: Item) returns (q: Parser)
    requires Between(p, n, m) && ItemFits(x) && x.Attribute?
    ensures var r := AfterItem(x, m);
      && Goes(p, ItemText(x), q, [])
      && if x.gap != "" then Between(q, n, r) else Pending(q, n, r.attrs, r.held)
  {
    hide Goes, Between, Pending, KeyFits, ValueFits, Blanks, Step, SetAttr, AtValue;
    var p1 := RunUpToValue(p, n, m, x);
    var v := Kept(Says(x.value), m.held);
    var attrs := SetAttr(NextKey(m), KeyOf(x.key), v);
    var p2 := RunValueText(p1, n, NextKey(m), m.held, KeyOf(x.key), x.value);
    var text := x.key + x.before + "=" + x.after;
    Quietly(p, text, p1, ValueText(x.value), p2);
    if x.gap == "" {
      q := p2;
      assert text + ValueText(x.value) + "" == text + ValueText(x.value);
    } else {
      q := RunGap(p2, n, attrs, v, x.gap);
      Quietly(p, text + ValueText(x.value), p2, x.gap, q);
    }
  }

  lemma RunItem(p: Parser, n: string, m: Memo, x: Item) returns (q: Parser)
    requires Between(p, n, m) && ItemFits(x)
    ensures var r := AfterItem(x, m);
      && Goes(p, ItemText(x), q, []) && Tagged(q, n, Carry(r.attrs, r.held))
      && (Separated(x) ==> Between(q, n, r))
  {
    hide Goes, KeyFits, ValueFits, Blanks, Step, SetAttr, DelAttr;
    match x
    case Attribute(_, _, _, _, gap) =>
      q := RunAttribute(p, n, m, x);
    case Flag(key, gap) =>
      var p1 := RunKeyText(p, n, m, key);
      q := FlagEnds(p1, n, NextKey(m), m.held, key, gap);
      Quietly(p, key, p1, gap, q);
    case Unfinished(_, _, _) =>
      q := RunUpToValue(p, n, m, x);
  }

  lemma {:induction false} RunItems(p: Parser, n: string, m: Memo, xs: seq<Item>) returns (q: Parser)
    requires Between(p, n, m) && ItemsFit(xs)
    ensures var r := AfterItems(xs, m); Goes(p, ItemsText(xs), q, []) && Tagged(q, n, Carry(r.attrs, r.held))
    decreases |xs|
  {
    hide Goes, Between, Tagged, ItemFits, ItemText, AfterItem;
    if xs == [] {
      q := p;
      GoNowhere(p);
      InAttrThen(p, n, m);
      LooseTagged(p, n, m.attrs, m.held);
    } else {
      var p1 := RunItem(p, n, m, xs[0]);
      if |xs| == 1 {
        q := p1;
        assert xs[1..] == [] && ItemsText(xs) == ItemText(xs[0]);
      } else {
        q := RunItems(p1, n, AfterItem(xs[0], m), xs[1..]);
        Quietly(p, ItemText(xs[0]), p1, ItemsText(xs[1..]), q);
      }
    }
  }

  lemma LooseTagged(p: Parser, n: string, attrs: Attrs, held: string)
    requires Loose(p, n, attrs, held)
    ensures Tagged(p, n, Carry(attrs, held))
  {
  }

  // ---------- tags ----------

  ghost predicate NameOk(n: string) {
    n != "" && StartsName(n[0]) && forall c :: c in n ==> InName(c)
  }

  lemma TagBegins(p: Parser)
    requires p.ctx == InTxt
    ensures Goes(p, "<", p.(ctx := InTag), [])
  {
    One(p, '<');
  }

  lemma NameBegins(p: Parser, c: char)
    requires p.ctx == InTag && p.cr1 == Ini && StartsName(c)
    ensures Goes(p, [c], p.(cr1 := Opening, r0 := p.r0.Cleared().Put(c)), [])
  {
    One(p, c);
  }

  lemma RunTagName(p: Parser, c: Carry, n: string) returns (q: Parser)
    requires AtRest(p, c) && NameOk(n)
    ensures Goes(p, "<" + n, q, []) && Named(q, n, c.attrs, c.held)
  {
    hide Step, Goes;
    var p1 := p.(ctx := InTag);
    TagBegins(p);
    var p2 := p1.(cr1 := Opening, r0 := p.r0.Cleared().Put(n[0]));
    NameBegins(p1, n[0]);
    Quietly(p, "<", p1, [n[0]], p2);
    assert forall x :: x in n[1..] ==> x in n;
    RunName(p2, n[1..]);
    q := p2.(r0 := Reg(p2.r0.stale, n));
    assert p2.r0.written + n[1..] == n;
    Quietly(p, "<" + [n[0]], p2, n[1..], q);
    assert "<" + [n[0]] + n[1..] == "<" + n;
  }

  lemma BlankEndsName(p: Parser, n: string, attrs: Attrs, held: string, c: char) returns (q: Parser)
    requires Named(p, n, attrs, held) && IsSpace(c)
    ensures Goes(p, [c], q, []) && Between(q, n, Memo([], held, None))
  {
    q := p.NoValues().(attrs := [], ctx := InAttr);
    assert !InName(c) && c != '/' && c != '>';
    assert Step(p, c) == Turn(q, [], Done);
    One(p, c);
  }

  /** The blanks after a name, which unset all attributes. */
  lemma RunLead(p: Parser, n: string, attrs: Attrs, held: string, lead: string) returns (q: Parser)
    requires Named(p, n, attrs, held) && Blanks(lead) && lead != ""
    ensures Goes(p, lead, q, []) && Between(q, n, Memo([], held, None))
  {
    hide Goes, Named, Between, Step, IsSpace;
    q := BlankEndsName(p, n, attrs, held, lead[0]);
    assert forall c :: c in lead[1..] ==> c in lead;
    InAttrThen(q, n, Memo([], held, None));
    RunBlanks(q, lead[1..]);
    Quietly(p, [lead[0]], q, lead[1..], q);
    assert [lead[0]] + lead[1..] == lead;
  }

  function TagText(n: string, lead: string, items: seq<Item>): (s: string) {
    "<" + n + (lead + ItemsText(items))
  }

  ghost predicate TagFits(n: string, lead: string, items: seq<Item>) {
    NameOk(n) && Blanks(lead) && ItemsFit(items) && (lead == "" ==> items == [])
  }

  /** Without a blank after its name, an element has the attributes of the one before. */
  function AfterTag(lead: string, items: seq<Item>, c: Carry): (r: Carry) {
    if lead == "" then c else var m := AfterItems(items, Memo([], c.held, None)); Carry(m.attrs, m.held)
  }

  lemma RunTag(p: Parser, c: Carry, n: string, lead: string, items: seq<Item>) returns (q: Parser)
    requires AtRest(p, c) && TagFits(n, lead, items)
    ensures Goes(p, TagText(n, lead, items), q, []) && Tagged(q, n, AfterTag(lead, items, c))
  {
    hide Goes, AtRest, Named, Between, Pending, Loose, NameOk, ItemsFit, Blanks, AfterItems, Step;
    var p1 := RunTagName(p, c, n);
    if lead == "" {
      q := p1;
      assert "<" + n + (lead + ItemsText(items)) == "<" + n;
    } else {
      var p2 := RunLead(p1, n, c.attrs, c.held, lead);
      q := RunItems(p2, n, Memo([], c.held, None), items);
      Quietly(p1, lead, p2, ItemsText(items), q);
      Quietly(p, "<" + n, p1, lead + ItemsText(items), q);
    }
  }

  /** At an end of a tag the attribute context goes back to the tag, as if there
      the last attribute were set already. */
  lemma PendingEnds(p: Parser, n: string, c: Carry, x: char) returns (p1: Parser)
    requires Pending(p, n, c.attrs, c.held) && (x == '>' || x == '/')
    ensures Named(p1, n, c.attrs, c.held) && Step(p, x) == Step(p1, x) && Step(p1, x).outcome == Done
  {
    hide SetAttr;
    p1 := p.(attrs := c.attrs, r1 := p.r1.Cleared(), r2 := p.r2.Cleared(), cr1 := Opening, ctx := InTag);
  }

  lemma LooseEnds(p: Parser, n: string, c: Carry, x: char) returns (p1: Parser)
    requires Loose(p, n, c.attrs, c.held) && (x == '>' || x == '/')
    ensures Named(p1, n, c.attrs, c.held) && Step(p, x) == Step(p1, x) && Step(p1, x).outcome == Done
  {
    p1 := p.(r1 := p.r1.Cleared(), r2 := p.r2.Cleared(), cr1 := Opening, ctx := InTag);
  }

  lemma NamedEnds(p: Parser, n: string, c: Carry, x: char)
    requires Named(p, n, c.attrs, c.held) && NameOk(n) && (x == '>' || x == '/')
    ensures var t := Step(p, x);
      && t.outcome == Done && t.seen == [Opened(n, c.attrs)]
      && (x == '>' ==> AtRest(t.p, c))
      && (x == '/' ==> Ending(t.p, n, c))
  {
    WordValue(n);
  }

  /** In a closing tag, or after the slash of an empty element. */
  ghost predicate Ending(p: Parser, n: string, c: Carry) {
    && p.ctx == InTag && p.cr1 == Closing && p.stack == [] && p.r0.written == n
    && p.attrs == c.attrs && p.r2.Value() == c.held
  }

  /** The end of an opening tag sets the last attribute and reports them all. */
  lemma EndTag(p: Parser, n: string, c: Carry, x: char) returns (q: Parser)
    requires Tagged(p, n, c) && NameOk(n) && (x == '>' || x == '/')
    ensures Goes(p, [x], q, [Opened(n, c.attrs)]) && if x == '>' then AtRest(q, c) else Ending(q, n, c)
  {
    hide Step, Goes, Named, Pending, Loose;
    var p1 := p;
    if Pending(p, n, c.attrs, c.held) {
      p1 := PendingEnds(p, n, c, x);
    } else if Loose(p, n, c.attrs, c.held) {
      p1 := LooseEnds(p, n, c, x);
    }
    NamedEnds(p1, n, c, x);
    One(p, x);
    q := Step(p, x).p;
  }

  lemma EndElement(p: Parser, n: string, c: Carry) returns (q: Parser)
    requires Ending(p, n, c) && n != "" && forall x :: x in n ==> InName(x)
    ensures Goes(p, ">", q, [Closed(n)]) && AtRest(q, c)
  {
    WordValue(n);
    One(p, '>');
    q := Step(p, '>').p;
  }

  /** More characters of the name of the element that is closed. */
  lemma RunEnding(p: Parser, n: string, c: Carry, more: string) returns (q: Parser)
    requires Ending(p, n, c) && n + more != "" && forall x :: x in n + more ==> InName(x)
    ensures Goes(p, more + ">", q, [Closed(n + more)]) && AtRest(q, c)
  {
    hide Goes, Step;
    assert forall x :: x in more ==> x in n + more;
    RunName(p, more);
    var p1 := p.(r0 := Reg(p.r0.stale, n + more));
    q := EndElement(p1, n + more, c);
    Chain(p, more, p1, [], ">", q, [Closed(n + more)]);
    assert [] + [Closed(n + more)] == [Closed(n + more)];
  }

  lemma SlashBegins(p: Parser, c: Carry) returns (q: Parser)
    requires AtRest(p, c)
    ensures Goes(p, "</", q, []) && Ending(q, "", c)
  {
    var p1 := p.(ctx := InTag);
    TagBegins(p);
    q := p1.NoValues().(cr1 := Closing);
    assert Step(p1, '/') == Turn(q, [], Done);
    One(p1, '/');
    Quietly(p, "<", p1, "/", q);
    assert "<" + "/" == "</";
  }

  // ---------- pieces of the text ----------

  datatype Markup =
    | StartTag(name: string, lead: string, items: seq<Item>)
    | EmptyTag(name: string, lead: string, items: seq<Item>, more: string) // whose slash more of the name may follow
    | PlainText(chars: string)
    | ClosingTag(name: string)
    | Instruction(text: string)
    | Hole                                                                      // an empty tag

  function MarkupText(m: Markup): (s: string) {
    match m
    case StartTag(n, lead, items) => TagText(n, lead, items) + ">"
    case EmptyTag(n, lead, items, more) => TagText(n, lead, items) + "/" + (more + ">")
    case PlainText(chars) => chars
    case ClosingTag(n) => "</" + (n + ">")
    case Instruction(text) => "<?" + text + "?>"
    case Hole => "<>"
  }

  function MarkupsText(ms: seq<Markup>): (s: string) {
    if ms == [] then "" else MarkupText(ms[0]) + MarkupsText(ms[1..])
  }

  ghost predicate MarkupFits(m: Markup) {
    match m
    case StartTag(n, lead, items) => TagFits(n, lead, items)
    case EmptyTag(n, lead, items, more) => TagFits(n, lead, items) && forall c :: c in more ==> InName(c)
    case PlainText(chars) => '<' !in chars
    case ClosingTag(n) => n != "" && forall c :: c in n ==> InName(c)
    case Instruction(text) => '?' !in text
    case Hole => true
  }

  /** What is reported. */
  ghost function Told(m: Markup, c: Carry): (s: seq<Seen>) {
    match m
    case StartTag(n, lead, items) => [Opened(n, AfterTag(lead, items, c).attrs)]
    case EmptyTag(n, lead, items, more) => [Opened(n, AfterTag(lead, items, c).attrs), Closed(n + more)]
    case PlainText(chars) => Puts(chars)
    case ClosingTag(n) => [Closed(n)]
    case Instruction(_) => []
    case Hole => []
  }

  ghost function AfterMarkup(m: Markup, c: Carry): (r: Carry) {
    match m
    case StartTag(_, lead, items) => AfterTag(lead, items, c)
    case EmptyTag(_, lead, items, _) => AfterTag(lead, items, c)
    case _ => c
  }

  ghost function ToldAll(ms: seq<Markup>, c: Carry): (s: seq<Seen>) {
    if ms == [] then [] else Told(ms[0], c) + ToldAll(ms[1..], AfterMarkup(ms[0], c))
  }

  ghost function AfterAll(ms: seq<Markup>, c: Carry): (r: Carry) {
    if ms == [] then c else AfterAll(ms[1..], AfterMarkup(ms[0], c))
  }

  lemma InstructionBegins(p: Parser)
    requires p.ctx == InTag && p.cr1 == Ini && p.stack == []
    ensures Goes(p, "?", p.(g1 := '?', ctx := Idle, stack := [InTag]), [])
  {
    assert [InTag] + p.stack == [InTag];
    One(p, '?');
  }

  lemma InstructionEnds(p: Parser)
    requires p.ctx == Idle && p.stack == [InTag] && p.g1 == '?'
    ensures Goes(p, "?", p.(ctx := InTag, stack := []), [])
  {
    One(p, '?');
  }

  lemma EmptyTagEnds(p: Parser)
    requires p.ctx == InTag && p.cr1 == Ini
    ensures Goes(p, ">", p.(r0 := p.r0.Cleared(), ctx := InTxt), [])
  {
    One(p, '>');
  }

  /** Nothing is reported of a processing instruction. */
  lemma RunInstruction(p: Parser, c: Carry, text: string) returns (q: Parser)
    requires AtRest(p, c) && '?' !in text
    ensures Goes(p, "<?" + text + "?>", q, []) && AtRest(q, c)
  {
    hide Goes, Step;
    TagBegins(p);
    var p1 := p.(ctx := InTag);
    InstructionBegins(p1);
    var p2 := p1.(g1 := '?', ctx := Idle, stack := [InTag]);
    Quietly(p, "<", p1, "?", p2);
    assert "<" + "?" == "<?";
    RunSkipped(p2, text);
    Quietly(p, "<?", p2, text, p2);
    InstructionEnds(p2);
    var p3 := p2.(ctx := InTag, stack := []);
    Quietly(p, "<?" + text, p2, "?", p3);
    EmptyTagEnds(p3);
    q := p3.(r0 := p3.r0.Cleared(), ctx := InTxt);
    Quietly(p, "<?" + text + "?", p3, ">", q);
    assert "<?" + text + "?" + ">" == "<?" + text + "?>";
  }

  lemma RunHole(p: Parser, c: Carry) returns (q: Parser)
    requires AtRest(p, c)
    ensures Goes(p, "<>", q, []) && AtRest(q, c)
  {
    TagBegins(p);
    var p1 := p.(ctx := InTag);
    EmptyTagEnds(p1);
    q := p1.(r0 := p1.r0.Cleared(), ctx := InTxt);
    Quietly(p, "<", p1, ">", q);
    assert "<" + ">" == "<>";
  }

  lemma RunOpen(p: Parser, c: Carry, m: Markup) returns (q: Parser)
    requires AtRest(p, c) && MarkupFits(m) && (m.StartTag? || m.EmptyTag?)
    ensures Goes(p, MarkupText(m), q, Told(m, c)) && AtRest(q, AfterMarkup(m, c))
  {
    hide Goes, Tagged, AtRest, Ending, NameOk, Blanks, ItemsFit, AfterTag, TagText;
    var n, d := m.name, AfterTag(m.lead, m.items, c);
    var p1 := RunTag(p, c, n, m.lead, m.items);
    var o := [Opened(n, d.attrs)];
    assert [] + o == o;
    if m.StartTag? {
      q := EndTag(p1, n, d, '>');
      Chain(p, TagText(n, m.lead, m.items), p1, [], ">", q, o);
    } else {
      var p2 := EndTag(p1, n, d, '/');
      Chain(p, TagText(n, m.lead, m.items), p1, [], "/", p2, o);
      MoreOfName(n, m.more);
      q := RunEnding(p2, n, d, m.more);
      Chain(p, TagText(n, m.lead, m.items) + "/", p2, o, m.more + ">", q, [Closed(n + m.more)]);
      assert o + [Closed(n + m.more)] == Told(m, c);
    }
  }

  lemma MoreOfName(n: string, more: string)
    requires NameOk(n) && forall c :: c in more ==> InName(c)
    ensures n + more != "" && forall c :: c in n + more ==> InName(c)
  {
  }

  lemma RunClose(p: Parser, c: Carry, n: string) returns (q: Parser)
    requires AtRest(p, c) && n != "" && forall x :: x in n ==> InName(x)
    ensures Goes(p, "</" + (n + ">"), q, [Closed(n)]) && AtRest(q, c)
  {
    hide Goes, AtRest, Ending;
    var p1 := SlashBegins(p, c);
    assert "" + n == n;
    q := RunEnding(p1, "", c, n);
    Chain(p, "</", p1, [], n + ">", q, [Closed(n)]);
    assert [] + [Closed(n)] == [Closed(n)];
  }

  /** One piece, whatever the parser holds before it. */
  lemma RunMarkup(p: Parser, c: Carry, m: Markup) returns (q: Parser)
    requires AtRest(p, c) && MarkupFits(m)
    ensures Goes(p, MarkupText(m), q, Told(m, c)) && AtRest(q, AfterMarkup(m, c))
  {
    hide Goes, AfterTag, TagText, TagFits;
    match m
    case StartTag(_, _, _) => q := RunOpen(p, c, m);
    case EmptyTag(_, _, _, _) => q := RunOpen(p, c, m);
    case PlainText(chars) =>
      q := p;
      RunChars(p, chars);
    case ClosingTag(n) => q := RunClose(p, c, n);
    case Instruction(text) => q := RunInstruction(p, c, text);
    case Hole => q := RunHole(p, c);
  }

  /** What is accepted as a whole, and what is reported of it. */
  lemma {:induction false} RunMarkups(p: Parser, c: Carry, ms: seq<Markup>) returns (q: Parser)
    requires AtRest(p, c) && forall i :: 0 <= i < |ms| ==> MarkupFits(ms[i])
    ensures Goes(p, MarkupsText(ms), q, ToldAll(ms, c)) && AtRest(q, AfterAll(ms, c))
    decreases |ms|
  {
    hide AtRest, MarkupFits, Told, AfterMarkup, MarkupText;
    if ms == [] {
      q := p;
    } else {
      hide Goes;
      var p1 := RunMarkup(p, c, ms[0]);
      q := RunMarkups(p1, AfterMarkup(ms[0], c), ms[1..]);
      Chain(p, MarkupText(ms[0]), p1, Told(ms[0], c), MarkupsText(ms[1..]), q, ToldAll(ms[1..], AfterMarkup(ms[0], c)));
    }
  }

  // ---------- what is not accepted ----------

  /** Nothing that begins a name, an instruction or a closing tag, and no end. */
  predicate Junk(s: string) {
    forall c :: c in s ==> !StartsName(c) && c != '?' && c != '/' && c != '>'
  }

  lemma {:induction false} RunJunk(p: Parser, junk: string, rest: string)
    requires p.ctx == InTag && p.cr1 == Ini && Junk(junk) && junk != ""
    ensures Run(p, junk + rest) == Run(p, rest).(outcome := Refused)
    decreases |junk|
  {
    assert Step(p, junk[0]) == Turn(p, [], Refused) by {
      assert !StartsName(junk[0]) && junk[0] != '?' && junk[0] != '/' && junk[0] != '>';
    }
    hide Step;
    assert (junk + rest)[1..] == junk[1..] + rest;
    if |junk| > 1 {
      assert forall c :: c in junk[1..] ==> c in junk;
      RunJunk(p, junk[1..], rest);
    } else {
      assert junk[1..] + rest == rest;
    }
  }

  /** Characters that cannot begin a tag are refused, and make no other difference. */
  lemma JunkIsDropped(p: Parser, c: Carry, junk: string, rest: string)
    requires AtRest(p, c) && Junk(junk) && junk != ""
    ensures Run(p, "<" + (junk + rest)) == Run(p, "<" + rest).(outcome := Refused)
  {
    var p1 := p.(ctx := InTag);
    TagBegins(p);
    RunBoth(p, "<", junk + rest);
    RunBoth(p, "<", rest);
    RunJunk(p1, junk, rest);
  }

  lemma {:induction false} RunClosingJunk(p: Parser, junk: string, rest: string)
    requires p.ctx == InTag && p.cr1 == Closing && junk != "" && forall c :: c in junk ==> !InName(c) && c != '>'
    ensures Run(p, junk + rest) == Run(p, rest).(outcome := Refused)
    decreases |junk|
  {
    assert Step(p, junk[0]) == Turn(p, [], Refused) by {
      assert !InName(junk[0]) && junk[0] != '>';
    }
    hide Step;
    assert (junk + rest)[1..] == junk[1..] + rest;
    if |junk| > 1 {
      assert forall c :: c in junk[1..] ==> c in junk;
      RunClosingJunk(p, junk[1..], rest);
    } else {
      assert junk[1..] + rest == rest;
    }
  }

  /** So are characters of a closing tag that cannot be in its name. */
  lemma ClosingJunkIsDropped(p: Parser, c: Carry, n: string, junk: string, rest: string)
    requires AtRest(p, c) && forall x :: x in n ==> InName(x)
    requires junk != "" && forall x :: x in junk ==> !InName(x) && x != '>'
    ensures Run(p, "</" + n + (junk + rest)) == Run(p, "</" + n + rest).(outcome := Refused)
  {
    var p1 := SlashBegins(p, c);
    RunName(p1, n);
    var p2 := p1.(r0 := Reg(p1.r0.stale, p1.r0.written + n));
    Quietly(p, "</", p1, n, p2);
    RunBoth(p, "</" + n, junk + rest);
    RunBoth(p, "</" + n, rest);
    RunClosingJunk(p2, junk, rest);
  }

  /** A character that can neither be in a name nor end one ends the program. */
  lemma BrokenName(p: Parser, c: Carry, n: string, x: char, rest: string)
    requires AtRest(p, c) && NameOk(n) && !InName(x) && !IsSpace(x) && x != '/' && x != '>'
    ensures Run(p, "<" + n + ([x] + rest)).outcome == Bug && Run(p, "<" + n + ([x] + rest)).seen == []
  {
    var p1 := RunTagName(p, c, n);
    RunBoth(p, "<" + n, [x] + rest);
    assert Step(p1, x) == Turn(p1, [], Bug);
  }

  // ---------- values without quotes ----------

  /** How much of a value without quotes is taken as such. */
  function Taken(v: string): (i: nat)
    requires v != ""
    ensures 0 < i <= |v|
  {
    1 + Letters(v[1..])
  }

  function Letters(s: string): (i: nat)
    ensures i <= |s| && (forall c :: c in s[..i] ==> StartsName(c)) && (i < |s| ==> !StartsName(s[i]))
  {
    if s == "" || !StartsName(s[0]) then 0 else 1 + Letters(s[1..])
  }

  lemma DigitEndsValue(p: Parser, n: string, attrs: Attrs, held: string, d: char) returns (q: Parser)
    requires Pending(p, n, attrs, held) && InKey(d) && !StartsName(d)
    ensures Goes(p, [d], q, []) && Named(q, n + [d], attrs, held)
  {
    hide SetAttr;
    assert !IsSpace(d);
    q := p.(attrs := attrs, r1 := p.r1.Cleared(), r2 := p.r2.Cleared(), cr1 := Opening, ctx := InTag, r0 := p.r0.Put(d));
    assert Step(p, d) == Turn(q, [], Done);
    One(p, d);
  }

  lemma RunDigits(p: Parser, n: string, attrs: Attrs, held: string, s: string) returns (q: Parser)
    requires Pending(p, n, attrs, held) && (forall c :: c in s ==> InKey(c)) && (s != "" ==> !StartsName(s[0]))
    ensures Goes(p, s, q, []) && Tagged(q, n + s, Carry(attrs, held))
  {
    hide Goes, Pending, Step, InKey, StartsName;
    if s == "" {
      q := p;
      GoNowhere(p);
      assert n + s == n;
    } else {
      var p1 := DigitEndsValue(p, n, attrs, held, s[0]);
      assert forall c :: c in s[1..] ==> c in s;
      KeyCharsInName(s[1..]);
      RunName(p1, s[1..]);
      q := p1.(r0 := Reg(p1.r0.stale, p1.r0.written + s[1..]));
      Quietly(p, [s[0]], p1, s[1..], q);
      assert [s[0]] + s[1..] == s && (n + [s[0]]) + s[1..] == n + s;
    }
  }

  lemma KeyCharsInName(s: string)
    requires forall c :: c in s ==> InKey(c)
    ensures forall c :: c in s ==> InName(c)
  {
  }

  lemma OneItem(n: string, k: string, v: string, held: string)
    requires NameOk(n) && KeyFits(k) && v != "" && forall c :: c in v ==> InKey(c)
    ensures var t := v[..Taken(v)]; var x := Attribute(k, "", "", Bare(t), "");
      && TagFits(n, " ", [x]) && TagText(n, " ", [x]) == "<" + n + " " + k + "=" + t
      && AfterItems([x], Memo([], held, None)) == Memo([Attr(KeyOf(k), t)], t, None)
  {
    var t := v[..Taken(v)];
    var x := Attribute(k, "", "", Bare(t), "");
    assert [x][1..] == [];
    assert ItemText(x) == k + "=" + t;
    assert ItemsText([x]) == ItemText(x) + "";
    assert " " == [' '];
    assert "<" + n + (" " + (k + "=" + t)) == "<" + n + " " + k + "=" + t;
  }

  lemma LongerName(n: string, more: string)
    requires NameOk(n) && forall c :: c in more ==> InKey(c)
    ensures NameOk(n + more)
  {
    KeyCharsInName(more);
    assert (n + more)[0] == n[0];
  }

  /** A value without quotes is taken up to the first digit after its first
      character; the rest goes to the name of the element. */
  lemma UnquotedValue(p: Parser, c: Carry, n: string, k: string, v: string) returns (q: Parser)
    requires AtRest(p, c) && NameOk(n) && KeyFits(k) && v != "" && forall x :: x in v ==> InKey(x)
    ensures var i := Taken(v); var a := [Attr(KeyOf(k), v[..i])];
      Goes(p, "<" + n + " " + k + "=" + v + ">", q, [Opened(n + v[i..], a)]) && AtRest(q, Carry(a, v[..i]))
  {
    hide Goes, AtRest, TagFits, TagText, AfterItems, KeyFits, Step, Named, Between, Loose, Pending, Tagged, KeyOf, Letters;
    var i := Taken(v);
    var t, x := v[..i], Attribute(k, "", "", Bare(v[..i]), "");
    OneItem(n, k, v, c.held);
    var a := [Attr(KeyOf(k), t)];
    var p1 := RunTagPending(p, c, n, x);
    assert forall y :: y in v[i..] ==> y in v;
    assert v[i..] != "" ==> v[i..][0] == v[1..][i - 1];
    var p2 := RunDigits(p1, n, a, t, v[i..]);
    Quietly(p, "<" + n + " " + k + "=" + t, p1, v[i..], p2);
    assert "<" + n + " " + k + "=" + t + v[i..] == "<" + n + " " + k + "=" + v;
    LongerName(n, v[i..]);
    q := EndTag(p2, n + v[i..], Carry(a, t), '>');
    Chain(p, "<" + n + " " + k + "=" + v, p2, [], ">", q, [Opened(n + v[i..], a)]);
    assert [] + [Opened(n + v[i..], a)] == [Opened(n + v[i..], a)];
  }

  lemma RunTagPending(p: Parser, c: Carry, n: string, x: Item) returns (q: Parser)
    requires AtRest(p, c) && TagFits(n, " ", [x]) && x.Attribute? && x.gap == ""
    ensures var m := AfterItems([x], Memo([], c.held, None));
      Goes(p, TagText(n, " ", [x]), q, []) && Pending(q, n, m.attrs, m.held)
  {
    hide Goes, AtRest, Named, Between, Pending, NameOk, Step, SetAttr;
    assert ItemFits(x) && [x][1..] == [];
    assert AfterItems([x], Memo([], c.held, None)) == AfterItem(x, Memo([], c.held, None));
    var p1 := RunTagName(p, c, n);
    var p2 := RunLead(p1, n, c.attrs, c.held, " ");
    q := RunAttribute(p2, n, Memo([], c.held, None), x);
    Quietly(p1, " ", p2, ItemText(x), q);
    Quietly(p, "<" + n, p1, " " + ItemText(x), q);
    assert ItemsText([x]) == ItemText(x) + "" == ItemText(x);
  }

  /** So it comes back exactly if it has no digit after its first character. */
  lemma UnquotedComesBack(p: Parser, c: Carry, n: string, k: string, v: string)
    requires AtRest(p, c) && NameOk(n) && KeyFits(k) && v != "" && forall x :: x in v ==> InKey(x)
    ensures Run(p, "<" + n + " " + k + "=" + v + ">").seen == [Opened(n, [Attr(KeyOf(k), v)])] <==>
      forall x :: x in v[1..] ==> StartsName(x)
  {
    var q := UnquotedValue(p, c, n, k, v);
    var i := Taken(v);
    if i < |v| {
      assert v[i] == v[1..][i - 1] && v[i] in v[1..];
      assert |v[..i]| < |v|;
    } else {
      assert v[..i] == v && v[i..] == "" && n + v[i..] == n;
      assert v[1..][..i - 1] == v[1..];
    }
  }

  /** <a k=x1> is read as an element a1 with the value x. */
  lemma DigitLeavesValue(p: Parser, c: Carry)
    requires AtRest(p, c)
    ensures Run(p, "<a k=x1>").seen == [Opened("a1", [Attr("k", "x")])]
  {
    var q := UnquotedValue(p, c, "a", "k", "x1");
    assert Letters("1") == 0 && Taken("x1") == 1 by {
      assert "x1"[1..] == "1";
    }
    assert "x1"[..1] == "x" && "x1"[1..] == "1" && "a" + "1" == "a1" && KeyOf("k") == "k" by {
      assert "k"[1..] == "";
    }
    assert "<" + "a" + " " + "k" + "=" + "x1" + ">" == "<a k=x1>";
  }

  const SWALLOWING := Attribute("k>b", "", "", Quoted('\'', "v", ""), "")

  lemma KeyOfMore(c: char, s: string)
    ensures KeyOf([c] + s) == (if InKey(c) then [c] else []) + KeyOf(s)
  {
    assert ([c] + s)[1..] == s;
  }

  lemma SwallowingKey()
    ensures KeyFits("k>b") && KeyOf("k>b") == "kb"
  {
    var k := ['k', '>', 'b'];
    assert KeyFits(k) && InKey('k') && !InKey('>') && InKey('b');
    hide InKey, KeyFits, KeyOf;
    KeyOfMore('b', "");
    KeyOfMore('>', ['b'] + "");
    KeyOfMore('k', ['>'] + (['b'] + ""));
    KeyOfKey("");
    assert k == ['k'] + (['>'] + (['b'] + "")) && "k>b" == k && "kb" == ['k'] + ([] + (['b'] + ""));
  }

  lemma SwallowingText()
    ensures ItemsText([SWALLOWING]) == "k>b='v'"
  {
    assert [SWALLOWING][1..] == [] && ItemsText([SWALLOWING][1..]) == "";
    assert ItemText(SWALLOWING) == "k>b='v'";
  }

  lemma SwallowingFits()
    requires KeyFits("k>b")
    ensures ItemsFit([SWALLOWING])
  {
    hide KeyFits;
    assert [SWALLOWING][1..] == [] && ItemsFit([SWALLOWING][1..]);
    assert ValueFits(SWALLOWING.value);
  }

  lemma SwallowingMeans(held: string)
    requires KeyOf("k>b") == "kb"
    ensures AfterItems([SWALLOWING], Memo([], held, None)).attrs == [Attr("kb", "v")]
  {
    assert [SWALLOWING][1..] == [] && Says(SWALLOWING.value) == "v";
    assert AfterItem(SWALLOWING, Memo([], held, None)) == Memo([Attr("kb", "v")], "v", None);
  }

  lemma ShortTag()
    ensures NameOk("a") && Blanks(" ")
  {
    assert "a" == ['a'] && " " == [' '];
  }

  /** <a k>b='v'> is read as an element a with an attribute kb: right after a
      key, an end of the tag is dropped. */
  lemma KeySwallowsEnd(p: Parser, c: Carry)
    requires AtRest(p, c)
    ensures Run(p, "<a k>b='v'>").seen == [Opened("a", [Attr("kb", "v")])]
  {
    SwallowingKey();
    SwallowingText();
    SwallowingFits();
    SwallowingMeans(c.held);
    ShortTag();
    hide AtRest, ItemsFit, ItemsText, AfterItems, KeyOf, NameOk, Blanks, Run, AfterItem;
    var q := RunMarkup(p, c, StartTag("a", " ", [SWALLOWING]));
    assert "<" + "a" + (" " + "k>b='v'") + ">" == "<a k>b='v'>";
  }
}
