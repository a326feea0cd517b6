/** Printing a tree and parsing the text: what comes back, and exactly when that
    is the tree again. */
module XmlEvents {
  import opened Options
  import opened Attributes
  import opened XmlTree
  import opened Sequences
  import opened XmlParser
  import opened XmlRuns
  import opened XmlTags
  import opened XmlRoundTrip

  // ---------- the text in pieces ----------

  datatype Token = Start(name: string, attrs: Attrs) | Empty(name: string, attrs: Attrs) | Chars(text: string) | End(name: string)

  ghost function Spelling(t: Token): (s: string) {
    match t
    case Start(n, a) => Head(n, a) + ">"
    case Empty(n, a) => Head(n, a) + "/>"
    case Chars(text) => text
    case End(n) => "</" + n + ">"
  }

  ghost function Spelled(ts: seq<Token>): (s: string) {
    if ts == [] then "" else Spelling(ts[0]) + Spelled(ts[1..])
  }

  ghost function Tokens(e: Element): (ts: seq<Token>)
    decreases e, 0
  {
    if IsBare(e) then [Empty(e.name, e.attrs)]
    else [Start(e.name, e.attrs)] + (TokensAll(e.kids) + [Chars(e.content), End(e.name)])
  }

  ghost function TokensAll(es: seq<Element>): (ts: seq<Token>)
    decreases es
  {
    if es == [] then [] else Tokens(es[0]) + TokensAll(es[1..])
  }

  lemma {:induction false} SpelledBoth(a: seq<Token>, b: seq<Token>)
    ensures Spelled(a + b) == Spelled(a) + Spelled(b)
  {
    if a == [] {
      assert a + b == b;
    } else {
      assert (a + b)[1..] == a[1..] + b;
      SpelledBoth(a[1..], b);
      assert Spelling(a[0]) + (Spelled(a[1..]) + Spelled(b)) == (Spelling(a[0]) + Spelled(a[1..])) + Spelled(b);
    }
  }

  lemma SpelledOne(t: Token)
    ensures Spelled([t]) == Spelling(t)
  {
    assert Spelled([t][1..]) == "";
  }

  lemma {:induction false} TextIsSpelled(e: Element)
    ensures Spelled(Tokens(e)) == Text(e)
    decreases e, 0
  {
    hide Head, Spelled;
    if IsBare(e) {
      SpelledOne(Empty(e.name, e.attrs));
    } else {
      var s, k, c, d := [Start(e.name, e.attrs)], TokensAll(e.kids), [Chars(e.content)], [End(e.name)];
      assert [Chars(e.content), End(e.name)] == c + d;
      SpelledBoth(s, k + (c + d));
      SpelledBoth(k, c + d);
      SpelledBoth(c, d);
      SpelledOne(s[0]);
      SpelledOne(c[0]);
      SpelledOne(d[0]);
      TextsAreSpelled(e.kids);
      assert Tail(e) == e.content + ("</" + e.name + ">");
      assert Head(e.name, e.attrs) + ">" + (Texts(e.kids) + Tail(e)) == Head(e.name, e.attrs) + (">" + (Texts(e.kids) + Tail(e)));
    }
  }

  lemma {:induction false} TextsAreSpelled(es: seq<Element>)
    ensures Spelled(TokensAll(es)) == Texts(es)
    decreases es
  {
    if es != [] {
      TextIsSpelled(es[0]);
      TextsAreSpelled(es[1..]);
      SpelledBoth(Tokens(es[0]), TokensAll(es[1..]));
    }
  }

  /** Names and keys of the accepted alphabets, keys distinct, values without
      quotes and NULs, text without opening brackets. */
  ghost predicate Fits(e: Element) {
    && NameOk(e.name) && AttrsOk(e.attrs) && '<' !in e.content
    && forall i :: 0 <= i < |e.kids| ==> Fits(e.kids[i])
  }

  ghost predicate TokenOk(t: Token) {
    match t
    case Start(n, a) => NameOk(n) && AttrsOk(a)
    case Empty(n, a) => NameOk(n) && AttrsOk(a)
    case Chars(text) => '<' !in text
    case End(n) => NameOk(n)
  }

  ghost predicate TokensOk(ts: seq<Token>) {
    forall i :: 0 <= i < |ts| ==> TokenOk(ts[i])
  }

  lemma {:induction false} TokensFit(e: Element)
    requires Fits(e)
    ensures TokensOk(Tokens(e))
    decreases e, 0
  {
    hide NameOk, AttrsOk;
    TokensAllFit(e.kids);
  }

  lemma {:induction false} TokensAllFit(es: seq<Element>)
    requires forall i :: 0 <= i < |es| ==> Fits(es[i])
    ensures TokensOk(TokensAll(es))
    decreases es
  {
    if es != [] {
      TokensFit(es[0]);
      TokensAllFit(es[1..]);
    }
  }

  // ---------- what the parser reports ----------

  /** What is reported for a piece, whatever the parser holds before it. */
  ghost function Reported(t: Token, c: Carry): (s: seq<Seen>) {
    match t
    case Start(n, a) => [Opened(n, After(a, c).attrs)]
    case Empty(n, a) => [Opened(n, After(a, c).attrs), Closed(n)]
    case Chars(text) => Puts(text)
    case End(n) => [Closed(n)]
  }

  ghost function Next(t: Token, c: Carry): (r: Carry) {
    match t
    case Start(n, a) => After(a, c)
    case Empty(n, a) => After(a, c)
    case _ => c
  }

  ghost function ReportedAll(ts: seq<Token>, c: Carry): (s: seq<Seen>) {
    if ts == [] then [] else Reported(ts[0], c) + ReportedAll(ts[1..], Next(ts[0], c))
  }

  ghost function NextAll(ts: seq<Token>, c: Carry): (r: Carry) {
    if ts == [] then c else NextAll(ts[1..], Next(ts[0], c))
  }

  // ---------- in any spelling ----------

  /** An empty element is opened and closed. */
  ghost function Expanded(ts: seq<Token>): (r: seq<Token>) {
    if ts == [] then [] else
    (match ts[0]
     case Empty(n, a) => [Start(n, a), End(n)]
     case _ => [ts[0]]) + Expanded(ts[1..])
  }

  ghost predicate OpensAs(m: Markup, t: Token) {
    (m.StartTag? || m.EmptyTag?) && t.Start? && m.name == t.name && Spell(m.items, t.attrs) && (m.lead == "" <==> t.attrs == [])
  }

  /** These pieces spell ts: attributes in any quotes or none, blanks wherever
      there may be some, texts in parts, empty elements in either form, and
      processing instructions anywhere between. */
  ghost predicate Spells(ms: seq<Markup>, ts: seq<Token>)
    decreases |ms|, |ts|
  {
    || (ms == [] && ts == [])
    || (ts != [] && ts[0] == Chars("") && Spells(ms, ts[1..]))
    || (ms != [] && (ms[0].Instruction? || ms[0].Hole?) && Spells(ms[1..], ts))
    || (ms != [] && ts != [] && ms[0].PlainText? && ts[0].Chars? && ms[0].chars <= ts[0].text
        && Spells(ms[1..], [Chars(ts[0].text[|ms[0].chars|..])] + ts[1..]))
    || (ms != [] && ts != [] && ms[0].StartTag? && OpensAs(ms[0], ts[0]) && Spells(ms[1..], ts[1..]))
    || (ms != [] && ts != [] && ms[0].ClosingTag? && ts[0] == End(ms[0].name) && Spells(ms[1..], ts[1..]))
    || (ms != [] && |ts| > 1 && ms[0].EmptyTag? && OpensAs(ms[0], ts[0]) && ts[1] == End(ms[0].name + ms[0].more)
        && Spells(ms[1..], ts[2..]))
  }

  lemma {:induction false} PutsBoth(a: string, b: string)
    ensures Puts(a + b) == Puts(a) + Puts(b)
  {
    if a == "" {
      assert a + b == b;
    } else {
      assert (a + b)[1..] == a[1..] + b;
      PutsBoth(a[1..], b);
    }
  }

  ghost predicate TokenDistinct(t: Token) {
    t.Start? || t.Empty? ==> DistinctKeys(t.attrs)
  }

  ghost predicate TokensDistinct(ts: seq<Token>) {
    forall i :: 0 <= i < |ts| ==> TokenDistinct(ts[i])
  }

  lemma {:induction false} SpellsTold(ms: seq<Markup>, ts: seq<Token>, c: Carry)
    requires Spells(ms, ts) && TokensDistinct(ts)
    ensures ToldAll(ms, c) == ReportedAll(ts, c) && AfterAll(ms, c) == NextAll(ts, c)
    decreases |ms|, |ts|
  {
    hide Spell, AfterTag, After, DistinctKeys;
    if ms == [] && ts == [] {
    } else if ts != [] && ts[0] == Chars("") && Spells(ms, ts[1..]) {
      SpellsTold(ms, ts[1..], c);
      assert Puts("") + ReportedAll(ts[1..], c) == ReportedAll(ts[1..], c);
    } else if (ms[0].Instruction? || ms[0].Hole?) && Spells(ms[1..], ts) {
      SpellsTold(ms[1..], ts, c);
      assert [] + ToldAll(ms[1..], c) == ToldAll(ms[1..], c);
    } else if ms[0].PlainText? {
      TextTold(ms, ts, c);
    } else if ms[0].StartTag? {
      SpellMeans(ms[0].lead, ms[0].items, ts[0].attrs, c);
      SpellsTold(ms[1..], ts[1..], AfterMarkup(ms[0], c));
    } else if ms[0].ClosingTag? {
      SpellsTold(ms[1..], ts[1..], c);
    } else {
      BothTold(ms, ts, c);
    }
  }

  lemma {:induction false} TextTold(ms: seq<Markup>, ts: seq<Token>, c: Carry)
    requires TokensDistinct(ts) && ms != [] && ts != [] && ms[0].PlainText? && ts[0].Chars? && ms[0].chars <= ts[0].text
    requires Spells(ms[1..], [Chars(ts[0].text[|ms[0].chars|..])] + ts[1..])
    ensures ToldAll(ms, c) == ReportedAll(ts, c) && AfterAll(ms, c) == NextAll(ts, c)
    decreases |ms|, 0
  {
    var x, y := ms[0].chars, ts[0].text[|ms[0].chars|..];
    var us := [Chars(y)] + ts[1..];
    assert us[1..] == ts[1..];
    hide Spells, DistinctKeys;
    assert TokensDistinct(us);
    SpellsTold(ms[1..], us, c);
    assert ts[0].text == x + y;
    PutsBoth(x, y);
    Grouped(Puts(x), Puts(y), ReportedAll(ts[1..], c));
  }

  lemma {:induction false} BothTold(ms: seq<Markup>, ts: seq<Token>, c: Carry)
    requires TokensDistinct(ts) && ms != [] && |ts| > 1 && ms[0].EmptyTag? && OpensAs(ms[0], ts[0])
    requires ts[1] == End(ms[0].name + ms[0].more) && Spells(ms[1..], ts[2..])
    ensures ToldAll(ms, c) == ReportedAll(ts, c) && AfterAll(ms, c) == NextAll(ts, c)
    decreases |ms|, 0
  {
    var t := ts[0];
    assert TokenDistinct(t);
    SpellMeans(ms[0].lead, ms[0].items, t.attrs, c);
    var d := AfterMarkup(ms[0], c);
    hide Spells, Spell, AfterTag, After, DistinctKeys;
    SpellsTold(ms[1..], ts[2..], d);
    assert ts[1..][1..] == ts[2..] && ts[1..][0] == ts[1];
    assert ReportedAll(ts[1..], d) == [Closed(ts[1].name)] + ReportedAll(ts[2..], d);
    Grouped([Opened(t.name, d.attrs)], [Closed(ts[1].name)], ReportedAll(ts[2..], d));
  }

  lemma OneTold(t: Token, us: seq<Token>, c: Carry)
    ensures ReportedAll([t] + us, c) == Reported(t, c) + ReportedAll(us, Next(t, c))
    ensures NextAll([t] + us, c) == NextAll(us, Next(t, c))
  {
    assert ([t] + us)[1..] == us;
  }

  lemma EmptyTold(n: string, a: Attrs, us: seq<Token>, c: Carry)
    ensures var ts := [Start(n, a), End(n)] + us; var d := After(a, c);
      ReportedAll(ts, c) == [Opened(n, d.attrs), Closed(n)] + ReportedAll(us, d) && NextAll(ts, c) == NextAll(us, d)
  {
    var d := After(a, c);
    assert [Start(n, a), End(n)] + us == [Start(n, a)] + ([End(n)] + us);
    OneTold(Start(n, a), [End(n)] + us, c);
    OneTold(End(n), us, d);
    hide After, ReportedAll, NextAll;
    Grouped([Opened(n, d.attrs)], [Closed(n)], ReportedAll(us, d));
  }

  lemma {:induction false} ExpandedTold(ts: seq<Token>, c: Carry)
    ensures ReportedAll(Expanded(ts), c) == ReportedAll(ts, c) && NextAll(Expanded(ts), c) == NextAll(ts, c)
    decreases |ts|
  {
    hide After;
    if ts != [] {
      var t, us := ts[0], Expanded(ts[1..]);
      ExpandedTold(ts[1..], Next(t, c));
      if t.Empty? {
        EmptyTold(t.name, t.attrs, us, c);
      } else {
        OneTold(t, us, c);
      }
    }
  }

  lemma {:induction false} ExpandedDistinct(ts: seq<Token>)
    requires TokensDistinct(ts)
    ensures TokensDistinct(Expanded(ts))
  {
    hide DistinctKeys;
    if ts != [] {
      assert TokenDistinct(ts[0]);
      ExpandedDistinct(ts[1..]);
    }
  }

  /** Any spelling of a tree is accepted as a whole from any state between
      elements, with exactly these reports, and leads to such a state again. */
  lemma AnySpellingExact(p: Parser, c: Carry, e: Element, ms: seq<Markup>) returns (q: Parser)
    requires AtRest(p, c) && Keyed(e) && Spells(ms, Expanded(Tokens(e))) && forall i :: 0 <= i < |ms| ==> MarkupFits(ms[i])
    ensures Run(p, MarkupsText(ms)) == Turn(q, ReportedAll(Tokens(e), c), Done) && AtRest(q, NextAll(Tokens(e), c))
  {
    hide AtRest, Spells, MarkupFits;
    TokensDiffer(e);
    ExpandedTold(Tokens(e), c);
    ExpandedDistinct(Tokens(e));
    SpellsTold(ms, Expanded(Tokens(e)), c);
    q := RunMarkups(p, c, ms);
  }

  lemma {:induction false} TokensDiffer(e: Element)
    requires Keyed(e)
    ensures TokensDistinct(Tokens(e))
    decreases e, 0
  {
    TokensAllDiffer(e.kids);
  }

  lemma {:induction false} TokensAllDiffer(es: seq<Element>)
    requires forall i :: 0 <= i < |es| ==> Keyed(es[i])
    ensures TokensDistinct(TokensAll(es))
    decreases es
  {
    if es != [] {
      TokensDiffer(es[0]);
      TokensAllDiffer(es[1..]);
    }
  }

  lemma {:induction false} FitsDiffer(e: Element)
    requires Fits(e)
    ensures Keyed(e)
    decreases e
  {
    forall i | 0 <= i < |e.kids| ensures Keyed(e.kids[i]) {
      FitsDiffer(e.kids[i]);
    }
  }

  // ---------- in the spelling of the serialiser ----------

  ghost function PrintedAs(t: Token): (m: Markup) {
    match t
    case Start(n, a) => StartTag(n, PrintedLead(a), Printed(a))
    case Empty(n, a) => EmptyTag(n, PrintedLead(a), Printed(a), "")
    case Chars(text) => PlainText(text)
    case End(n) => ClosingTag(n)
  }

  ghost function PrintedAll(ts: seq<Token>): (ms: seq<Markup>)
    ensures |ms| == |ts|
  {
    if ts == [] then [] else [PrintedAs(ts[0])] + PrintedAll(ts[1..])
  }

  lemma PrintedTag(n: string, a: Attrs)
    requires NameOk(n) && AttrsOk(a)
    ensures TagFits(n, PrintedLead(a), Printed(a)) && TagText(n, PrintedLead(a), Printed(a)) == Head(n, a)
  {
    hide NameOk;
    PrintedFits(a);
    PrintedText(a);
  }

  lemma PrintedMarkup(t: Token)
    requires TokenOk(t)
    ensures MarkupFits(PrintedAs(t)) && MarkupText(PrintedAs(t)) == Spelling(t)
  {
    hide AttrsOk, TagFits, TagText, Head;
    match t
    case Start(n, a) => PrintedTag(n, a);
    case Empty(n, a) =>
      PrintedTag(n, a);
      assert Head(n, a) + "/" + ("" + ">") == Head(n, a) + "/>";
    case Chars(_) =>
    case End(n) => assert "</" + (n + ">") == "</" + n + ">";
  }

  lemma {:induction false} PrintedMarkups(ts: seq<Token>)
    requires TokensOk(ts)
    ensures MarkupsText(PrintedAll(ts)) == Spelled(ts)
    ensures forall i :: 0 <= i < |ts| ==> MarkupFits(PrintedAll(ts)[i])
    decreases |ts|
  {
    hide TokenOk, MarkupFits, MarkupText, PrintedAs, Spelling;
    if ts != [] {
      var ms := PrintedAll(ts);
      PrintedMarkup(ts[0]);
      PrintedMarkups(ts[1..]);
      assert ms[1..] == PrintedAll(ts[1..]);
      forall i | 0 <= i < |ts| ensures MarkupFits(ms[i]) {
        if i > 0 {
          assert ms[i] == PrintedAll(ts[1..])[i - 1];
        }
      }
    }
  }

  lemma PrintedOpens(t: Token)
    requires TokenOk(t) && (t.Start? || t.Empty?)
    ensures OpensAs(PrintedAs(t), Start(t.name, t.attrs))
  {
    hide KeyOk;
    PrintedSpells(t.attrs);
  }

  lemma {:induction false} PrintedSpellsAll(ts: seq<Token>)
    requires TokensOk(ts)
    ensures Spells(PrintedAll(ts), Expanded(ts))
    decreases |ts|
  {
    hide OpensAs, TokenOk;
    if ts != [] {
      var ms, us := PrintedAll(ts), Expanded(ts[1..]);
      PrintedSpellsAll(ts[1..]);
      assert ms[1..] == PrintedAll(ts[1..]);
      match ts[0]
      case Start(n, a) =>
        PrintedOpens(ts[0]);
        assert Expanded(ts)[1..] == us;
      case Empty(n, a) =>
        PrintedOpens(ts[0]);
        assert Expanded(ts)[2..] == us && n + "" == n;
      case Chars(text) =>
        assert Expanded(ts)[1..] == us && text[|text|..] == "";
        var xs := [Chars("")] + us;
        assert xs[1..] == us;
        assert Spells(ms[1..], xs);
      case End(n) =>
        assert Expanded(ts)[1..] == us;
    }
  }

  /** The text of a tree is accepted as a whole from any state between
      elements, with exactly these reports, and leads to such a state again. */
  lemma RoundTripExact(p: Parser, c: Carry, e: Element) returns (q: Parser)
    requires AtRest(p, c) && Fits(e)
    ensures Run(p, Text(e)) == Turn(q, ReportedAll(Tokens(e), c), Done) && AtRest(q, NextAll(Tokens(e), c))
  {
    hide AtRest;
    TokensFit(e);
    FitsDiffer(e);
    TextIsSpelled(e);
    PrintedMarkups(Tokens(e));
    PrintedSpellsAll(Tokens(e));
    q := AnySpellingExact(p, c, e, PrintedAll(Tokens(e)));
  }

  // ---------- what they should be ----------

  datatype Event = Open(name: string, attrs: map<string, string>) | Put(c: char) | Close(name: string)

  ghost function Meaning(s: Seen): (e: Event) {
    match s
    case Opened(n, a) => Open(n, AsMap(a))
    case Char(c) => Put(c)
    case Closed(n) => Close(n)
  }

  ghost function Meanings(s: seq<Seen>): (es: seq<Event>)
    ensures |es| == |s| && forall i :: 0 <= i < |s| ==> es[i] == Meaning(s[i])
  {
    seq(|s|, i requires 0 <= i < |s| => Meaning(s[i]))
  }

  /** Opening, children in order, text, closing. */
  ghost function TreeEvents(e: Element): (es: seq<Event>)
    decreases e, 0
  {
    [Open(e.name, AsMap(e.attrs))] + (TreesEvents(e.kids) + (Meanings(Puts(e.content)) + [Close(e.name)]))
  }

  ghost function TreesEvents(es: seq<Element>): (s: seq<Event>)
    decreases es
  {
    if es == [] then [] else TreeEvents(es[0]) + TreesEvents(es[1..])
  }

  ghost function Ideal(t: Token): (es: seq<Event>) {
    match t
    case Start(n, a) => [Open(n, AsMap(a))]
    case Empty(n, a) => [Open(n, AsMap(a)), Close(n)]
    case Chars(text) => Meanings(Puts(text))
    case End(n) => [Close(n)]
  }

  ghost function IdealAll(ts: seq<Token>): (es: seq<Event>) {
    if ts == [] then [] else Ideal(ts[0]) + IdealAll(ts[1..])
  }

  lemma {:induction false} IdealBoth(a: seq<Token>, b: seq<Token>)
    ensures IdealAll(a + b) == IdealAll(a) + IdealAll(b)
  {
    if a == [] {
      assert a + b == b;
    } else {
      assert (a + b)[1..] == a[1..] + b;
      IdealBoth(a[1..], b);
      assert Ideal(a[0]) + (IdealAll(a[1..]) + IdealAll(b)) == (Ideal(a[0]) + IdealAll(a[1..])) + IdealAll(b);
    }
  }

  lemma IdealOne(t: Token)
    ensures IdealAll([t]) == Ideal(t)
  {
    assert IdealAll([t][1..]) == [];
  }

  lemma {:induction false} TreeIsIdeal(e: Element)
    ensures IdealAll(Tokens(e)) == TreeEvents(e)
    decreases e, 0
  {
    hide IdealAll;
    if IsBare(e) {
      IdealOne(Empty(e.name, e.attrs));
      assert Meanings(Puts(e.content)) == [] && TreesEvents(e.kids) == [];
    } else {
      var s, k, c, d := [Start(e.name, e.attrs)], TokensAll(e.kids), [Chars(e.content)], [End(e.name)];
      assert [Chars(e.content), End(e.name)] == c + d;
      IdealBoth(s, k + (c + d));
      IdealBoth(k, c + d);
      IdealBoth(c, d);
      IdealOne(s[0]);
      IdealOne(c[0]);
      IdealOne(d[0]);
      TreesAreIdeal(e.kids);
    }
  }

  lemma {:induction false} TreesAreIdeal(es: seq<Element>)
    ensures IdealAll(TokensAll(es)) == TreesEvents(es)
    decreases es
  {
    if es != [] {
      TreeIsIdeal(es[0]);
      TreesAreIdeal(es[1..]);
      IdealBoth(Tokens(es[0]), TokensAll(es[1..]));
    }
  }

  // ---------- when they are ----------

  /** A list of attributes comes back as it is. */
  ghost predicate Faithful(a: Attrs, c: Carry) {
    if a == [] then c.attrs == [] else Effective(a, c.held) == a
  }

  lemma SameMapSameList(a: Attrs, c: Carry)
    requires DistinctKeys(a)
    ensures AsMap(After(a, c).attrs) == AsMap(a) <==> Faithful(a, c)
  {
    if a == [] {
      if c.attrs != [] {
        assert Lookup(c.attrs, c.attrs[0].key).Some?;
        assert c.attrs[0].key in AsMap(c.attrs);
      }
    } else {
      var x := Effective(a, c.held);
      EffectiveKeys(a, c.held);
      ReversedSameMap(x);
      if AsMap(x) == AsMap(a) {
        forall i | 0 <= i < |a| ensures x[i] == a[i] {
          MapOfDistinct(a, i);
          MapOfDistinct(x, i);
          assert a[i].key in AsMap(a);
        }
      }
    }
  }

  ghost predicate TokenFaithful(t: Token, c: Carry) {
    match t
    case Start(n, a) => Faithful(a, c)
    case Empty(n, a) => Faithful(a, c)
    case _ => true
  }

  ghost predicate AllFaithful(ts: seq<Token>, c: Carry) {
    ts == [] || (TokenFaithful(ts[0], c) && AllFaithful(ts[1..], Next(ts[0], c)))
  }

  lemma TokenMeans(t: Token, c: Carry)
    requires TokenDistinct(t)
    ensures |Reported(t, c)| == |Ideal(t)|
    ensures Meanings(Reported(t, c)) == Ideal(t) <==> TokenFaithful(t, c)
  {
    hide AsMap, Faithful, DistinctKeys;
    match t
    case Start(n, a) =>
      OpensMean(n, a, c);
      var m := Meanings(Reported(t, c));
      assert m == [Meaning(Opened(n, After(a, c).attrs))] && Ideal(t)[0] == Open(n, AsMap(a));
    case Empty(n, a) =>
      OpensMean(n, a, c);
      var m := Meanings(Reported(t, c));
      assert m[1] == Close(n) && m[0] == Meaning(Opened(n, After(a, c).attrs));
      assert m == [m[0], m[1]] && Ideal(t)[0] == Open(n, AsMap(a));
    case _ =>
  }

  lemma OpensMean(n: string, a: Attrs, c: Carry)
    requires DistinctKeys(a)
    ensures Meaning(Opened(n, After(a, c).attrs)) == Open(n, AsMap(a)) <==> Faithful(a, c)
  {
    SameMapSameList(a, c);
  }

  lemma MeaningsBoth(a: seq<Seen>, b: seq<Seen>)
    ensures Meanings(a + b) == Meanings(a) + Meanings(b)
  {
  }

  lemma SplitEqual<T>(a: seq<T>, b: seq<T>, x: seq<T>, y: seq<T>)
    requires |a| == |x|
    ensures a + b == x + y <==> a == x && b == y
  {
    if a + b == x + y {
      assert a == (a + b)[..|a|] && b == (a + b)[|a|..];
      assert x == (x + y)[..|a|] && y == (x + y)[|a|..];
    }
  }

  lemma {:induction false} TokensMean(ts: seq<Token>, c: Carry)
    requires TokensDistinct(ts)
    ensures Meanings(ReportedAll(ts, c)) == IdealAll(ts) <==> AllFaithful(ts, c)
    decreases |ts|
  {
    if ts != [] {
      hide Reported, Ideal, Meanings, TokenFaithful, Next, TokenDistinct;
      var t, rest := ts[0], ts[1..];
      TokenMeans(t, c);
      TokensMean(rest, Next(t, c));
      MeaningsBoth(Reported(t, c), ReportedAll(rest, Next(t, c)));
      SplitEqual(Meanings(Reported(t, c)), Meanings(ReportedAll(rest, Next(t, c))), Ideal(t), IdealAll(rest));
    }
  }

  // ---------- the condition, on the tree alone ----------

  /** The attribute lists of a tree in document order. */
  function AttrLists(e: Element): (ls: seq<Attrs>)
    decreases e, 0
  {
    [e.attrs] + AttrListsAll(e.kids)
  }

  function AttrListsAll(es: seq<Element>): (ls: seq<Attrs>)
    decreases es
  {
    if es == [] then [] else AttrLists(es[0]) + AttrListsAll(es[1..])
  }

  /** The values of some lists, in order. */
  function Values(ls: seq<Attrs>): (vs: seq<string>) {
    if ls == [] then [] else ValuesOf(ls[0]) + Values(ls[1..])
  }

  function ValuesOf(a: Attrs): (vs: seq<string>)
    ensures |vs| == |a| && forall i :: 0 <= i < |a| ==> vs[i] == a[i].val
  {
    seq(|a|, i requires 0 <= i < |a| => a[i].val)
  }

  /** Empty ones come first, and only if there may be any. */
  ghost predicate EmptyFirst<T>(ss: seq<seq<T>>, may: bool) {
    forall j :: 0 <= j < |ss| && ss[j] == [] ==> may && forall i :: 0 <= i < j ==> ss[i] == []
  }

  /** Elements without attributes come before all others, and empty values
      before all others. */
  ghost predicate Unconfused(e: Element, c: Carry) {
    var ls := AttrLists(e);
    EmptyFirst(ls, c.attrs == []) && EmptyFirst(Values(ls), c.held == "")
  }

  ghost predicate AllEmpty<T>(ss: seq<seq<T>>) {
    forall i :: 0 <= i < |ss| ==> ss[i] == []
  }

  lemma EmptyFirstSplit<T>(a: seq<seq<T>>, b: seq<seq<T>>, may: bool)
    ensures EmptyFirst(a + b, may) <==> EmptyFirst(a, may) && EmptyFirst(b, may && AllEmpty(a))
  {
    var s := a + b;
    assert forall i :: 0 <= i < |a| ==> s[i] == a[i];
    assert forall i :: 0 <= i < |b| ==> s[|a| + i] == b[i];
    if EmptyFirst(s, may) {
      forall j | 0 <= j < |b| && b[j] == [] ensures may && AllEmpty(a) && forall i :: 0 <= i < j ==> b[i] == [] {
        assert s[|a| + j] == [];
        forall i | 0 <= i < j ensures b[i] == [] {
          assert s[|a| + i] == [];
        }
      }
    }
  }

  lemma OneEmptyFirst<T>(s: seq<T>, may: bool)
    ensures EmptyFirst([s], may) <==> (s == [] ==> may)
    ensures AllEmpty([s]) <==> s == []
  {
    assert [s][0] == s;
  }

  lemma EmptyFirstCons<T>(s: seq<T>, ss: seq<seq<T>>, may: bool)
    ensures EmptyFirst([s] + ss, may) <==> (s == [] ==> may) && EmptyFirst(ss, may && s == [])
  {
    hide EmptyFirst, AllEmpty;
    EmptyFirstSplit([s], ss, may);
    OneEmptyFirst(s, may);
  }

  lemma {:induction false} HeldValues(a: Attrs, held: string)
    ensures LastHeld(a, held) == "" <==> held == "" && AllEmpty(ValuesOf(a))
    decreases |a|
  {
    if a != [] {
      HeldValues(a[1..], Kept(a[0].val, held));
      assert ValuesOf(a) == [a[0].val] + ValuesOf(a[1..]);
    }
  }

  lemma EffectiveParts(a: Attrs, held: string)
    requires a != []
    ensures var v := Kept(a[0].val, held);
      Effective(a, held) == a <==> v == a[0].val && Effective(a[1..], v) == a[1..]
  {
    var v := Kept(a[0].val, held);
    assert a == [a[0]] + a[1..];
    SplitEqual([Attr(a[0].key, v)], Effective(a[1..], v), [a[0]], a[1..]);
  }

  lemma ValuesParts(a: Attrs)
    requires a != []
    ensures ValuesOf(a) == [a[0].val] + ValuesOf(a[1..])
  {
  }

  lemma NoValues(held: string)
    ensures Effective([], held) == [] && EmptyFirst(ValuesOf([]), held == "")
  {
  }

  lemma {:induction false} EffectiveValues(a: Attrs, held: string)
    ensures Effective(a, held) == a <==> EmptyFirst(ValuesOf(a), held == "")
    decreases |a|
  {
    hide EmptyFirst, Effective, ValuesOf;
    if a == [] {
      NoValues(held);
    } else {
      EffectiveParts(a, held);
      EffectiveValues(a[1..], Kept(a[0].val, held));
      ValuesParts(a);
      EmptyFirstCons(a[0].val, ValuesOf(a[1..]), held == "");
    }
  }

  ghost predicate ListsFaithful(ls: seq<Attrs>, c: Carry) {
    ls == [] || (Faithful(ls[0], c) && ListsFaithful(ls[1..], After(ls[0], c)))
  }

  lemma {:induction false} ListsCondition(ls: seq<Attrs>, c: Carry)
    ensures ListsFaithful(ls, c) <==> EmptyFirst(ls, c.attrs == []) && EmptyFirst(Values(ls), c.held == "")
    decreases |ls|
  {
    if ls != [] {
      hide EmptyFirst;
      var a, d := ls[0], After(ls[0], c);
      ListsCondition(ls[1..], d);
      assert ls == [a] + ls[1..];
      EmptyFirstSplit([a], ls[1..], c.attrs == []);
      EmptyFirstSplit(ValuesOf(a), Values(ls[1..]), c.held == "");
      EffectiveValues(a, c.held);
      HeldValues(a, c.held);
      OneEmptyFirst(a, c.attrs == []);
    }
  }

  ghost function ListsOf(ts: seq<Token>): (ls: seq<Attrs>) {
    if ts == [] then [] else ListOf(ts[0]) + ListsOf(ts[1..])
  }

  ghost function ListOf(t: Token): (ls: seq<Attrs>) {
    if t.Start? || t.Empty? then [t.attrs] else []
  }

  lemma {:induction false} FaithfulLists(ts: seq<Token>, c: Carry)
    ensures AllFaithful(ts, c) <==> ListsFaithful(ListsOf(ts), c)
    decreases |ts|
  {
    if ts != [] {
      FaithfulLists(ts[1..], Next(ts[0], c));
      if ts[0].Start? || ts[0].Empty? {
        assert ListsOf(ts)[1..] == ListsOf(ts[1..]);
      } else {
        assert ListsOf(ts) == ListsOf(ts[1..]);
      }
    }
  }

  lemma {:induction false} ListsBoth(a: seq<Token>, b: seq<Token>)
    ensures ListsOf(a + b) == ListsOf(a) + ListsOf(b)
  {
    if a == [] {
      assert a + b == b;
    } else {
      assert (a + b)[1..] == a[1..] + b;
      ListsBoth(a[1..], b);
      hide ListOf;
      assert ListOf(a[0]) + (ListsOf(a[1..]) + ListsOf(b)) == (ListOf(a[0]) + ListsOf(a[1..])) + ListsOf(b);
    }
  }

  lemma {:induction false} TreeLists(e: Element)
    ensures ListsOf(Tokens(e)) == AttrLists(e)
    decreases e, 0
  {
    if IsBare(e) {
      assert Tokens(e)[1..] == [];
    } else {
      var k, d := TokensAll(e.kids), [Chars(e.content), End(e.name)];
      assert Tokens(e)[1..] == k + d;
      ListsBoth(k, d);
      assert d[1..] == [End(e.name)] && ListsOf(d[1..][1..]) == [];
      assert ListsOf(d) == [] && ListsOf(k) + [] == ListsOf(k);
      TreesLists(e.kids);
    }
  }

  lemma {:induction false} TreesLists(es: seq<Element>)
    ensures ListsOf(TokensAll(es)) == AttrListsAll(es)
    decreases es
  {
    if es != [] {
      TreeLists(es[0]);
      TreesLists(es[1..]);
      ListsBoth(Tokens(es[0]), TokensAll(es[1..]));
    }
  }

  /** The reports mean the tree itself exactly if the parser cannot confuse its
      attributes and values with earlier ones. */
  lemma ReportedMeans(e: Element, c: Carry)
    requires Keyed(e)
    ensures Meanings(ReportedAll(Tokens(e), c)) == TreeEvents(e) <==> Unconfused(e, c)
  {
    TokensDiffer(e);
    TokensMean(Tokens(e), c);
    TreeIsIdeal(e);
    FaithfulLists(Tokens(e), c);
    TreeLists(e);
    ListsCondition(AttrLists(e), c);
  }

  /** Parsing the text of a tree gives its own events, with the same attribute
      maps, exactly then. */
  lemma RoundTrip(p: Parser, c: Carry, e: Element)
    requires AtRest(p, c) && Fits(e)
    ensures Run(p, Text(e)).outcome == Done
    ensures Meanings(Run(p, Text(e)).seen) == TreeEvents(e) <==> Unconfused(e, c)
  {
    var q := RoundTripExact(p, c, e);
    FitsDiffer(e);
    ReportedMeans(e, c);
  }

  /** And so does parsing it in any other spelling that the parser accepts. */
  lemma AnySpelling(p: Parser, c: Carry, e: Element, ms: seq<Markup>)
    requires AtRest(p, c) && Keyed(e) && Spells(ms, Expanded(Tokens(e))) && forall i :: 0 <= i < |ms| ==> MarkupFits(ms[i])
    ensures Run(p, MarkupsText(ms)).outcome == Done
    ensures Meanings(Run(p, MarkupsText(ms)).seen) == TreeEvents(e) <==> Unconfused(e, c)
  {
    hide Spells;
    var q := AnySpellingExact(p, c, e, ms);
    ReportedMeans(e, c);
  }

  /** In particular for trees in which every element has an attribute and no
      value is empty, whatever was parsed before. */
  lemma RoundTripAttributed(p: Parser, c: Carry, e: Element)
    requires AtRest(p, c) && Fits(e)
    requires [] !in AttrLists(e) && "" !in Values(AttrLists(e))
    ensures Meanings(Run(p, Text(e)).seen) == TreeEvents(e)
  {
    RoundTrip(p, c, e);
  }

  /** The first tree a parser sees, over registers that held garbage. */
  lemma RoundTripFresh(p: Parser, e: Element)
    requires Fresh(p) && Fits(e)
    ensures Meanings(Run(p, Text(e)).seen) == TreeEvents(e) <==>
            EmptyFirst(AttrLists(e), true) && EmptyFirst(Values(AttrLists(e)), p.r2.stale == "")
  {
    RoundTrip(p, Carry([], p.r2.stale), e);
  }

  /** Two elements that are enough to confuse the parser: <a k='v'><b/></a>. */
  lemma BareAfterAttributed(p: Parser)
    requires Fresh(p)
    ensures Fits(Element("a", [Attr("k", "v")], "", [Element("b", [], "", [])]))
    ensures var e := Element("a", [Attr("k", "v")], "", [Element("b", [], "", [])]);
      Meanings(Run(p, Text(e)).seen) != TreeEvents(e)
  {
    var b := Element("b", [], "", []);
    var e := Element("a", [Attr("k", "v")], "", [b]);
    assert Fits(b);
    assert AttrListsAll([b][1..]) == [] && AttrListsAll(b.kids) == [];
    assert AttrLists(b) == [[]] && AttrListsAll([b]) == [[]];
    assert AttrLists(e)[0] == [Attr("k", "v")] && AttrLists(e)[1] == [];
    RoundTripFresh(p, e);
  }

  /** And so is one element with two values: <a k='v' l=''/>. */
  lemma EmptyAfterValue(p: Parser)
    requires Fresh(p)
    ensures Fits(Element("a", [Attr("k", "v"), Attr("l", "")], "", []))
    ensures var e := Element("a", [Attr("k", "v"), Attr("l", "")], "", []);
      Meanings(Run(p, Text(e)).seen) != TreeEvents(e)
  {
    var a := [Attr("k", "v"), Attr("l", "")];
    var e := Element("a", a, "", []);
    assert AttrLists(e) == [a] && [a][1..] == [];
    assert Values([a]) == ValuesOf(a) + [];
    assert Values([a])[0] == "v" && Values([a])[1] == "";
    RoundTripFresh(p, e);
  }
}
