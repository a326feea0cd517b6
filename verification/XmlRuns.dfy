/** Runs of the parser over characters of one kind. */
module XmlRuns {
  import opened XmlParser

  /** A run in which every character is accepted. */
  ghost predicate Goes(p: Parser, s: string, q: Parser, seen: seq<Seen>) {
    Run(p, s) == Turn(q, seen, Done)
  }

  lemma Chain(p: Parser, a: string, q: Parser, sa: seq<Seen>, b: string, r: Parser, sb: seq<Seen>)
    requires Goes(p, a, q, sa) && Goes(q, b, r, sb)
    ensures Goes(p, a + b, r, sa + sb)
  {
    hide Step, Run;
    RunBoth(p, a, b);
  }

  lemma Quietly(p: Parser, a: string, q: Parser, b: string, r: Parser)
    requires Goes(p, a, q, []) && Goes(q, b, r, [])
    ensures Goes(p, a + b, r, [])
  {
    Chain(p, a, q, [], b, r, []);
  }

  lemma One(p: Parser, c: char)
    requires Step(p, c).outcome == Done
    ensures Goes(p, [c], Step(p, c).p, Step(p, c).seen)
  {
    hide Step;
    var t := Step(p, c);
    assert Run(t.p, [c][1..]) == Turn(t.p, [], Done);
    assert t.seen + [] == t.seen;
  }

  // ---------- runs of characters of one kind ----------

  ghost function Puts(t: string): (s: seq<Seen>) {
    if t == [] then [] else [Char(t[0])] + Puts(t[1..])
  }

  lemma {:induction false} RunChars(p: Parser, t: string)
    requires p.ctx == InTxt && '<' !in t
    ensures Goes(p, t, p, Puts(t))
    decreases |t|
  {
    if t != [] {
      RunChars(p, t[1..]);
    }
  }

  lemma {:induction false} RunName(p: Parser, s: string)
    requires p.ctx == InTag && (p.cr1 == Opening || p.cr1 == Closing) && forall c :: c in s ==> InName(c)
    ensures Goes(p, s, p.(r0 := Reg(p.r0.stale, p.r0.written + s)), [])
    decreases |s|
  {
    if s == [] {
      assert p.r0.written + s == p.r0.written;
    } else {
      var q := p.(r0 := p.r0.Put(s[0]));
      assert Step(p, s[0]) == Turn(q, [], Done) by {
        assert InName(s[0]);
      }
      RunName(q, s[1..]);
      assert p.r0.written + s == (p.r0.written + [s[0]]) + s[1..];
    }
  }

  /** What the parser takes of the characters of a key; it drops the others. */
  function KeyOf(s: string): (k: string) {
    if s == "" then "" else (if InKey(s[0]) then [s[0]] else []) + KeyOf(s[1..])
  }

  /** A key is taken as it stands exactly if every character can be in one. */
  lemma {:induction false} KeyOfKey(s: string)
    ensures (forall c :: c in KeyOf(s) ==> InKey(c)) && (KeyOf(s) == s <==> forall c :: c in s ==> InKey(c))
  {
    if s != "" {
      KeyOfKey(s[1..]);
    }
  }

  lemma KeyStep(p: Parser, c: char)
    requires p.ctx == InAttr && p.cr1 == Key && c != '=' && !IsSpace(c)
    ensures Step(p, c) == Turn(if InKey(c) then p.(r1 := p.r1.Put(c)) else p, [], Done)
  {
  }

  lemma OneThen(p: Parser, c: char, q: Parser, rest: string, r: Parser)
    requires Step(p, c) == Turn(q, [], Done) && Goes(q, rest, r, [])
    ensures Goes(p, [c] + rest, r, [])
  {
    hide Step;
    assert ([c] + rest)[1..] == rest;
  }

  lemma {:induction false} RunKey(p: Parser, s: string)
    requires p.ctx == InAttr && p.cr1 == Key && forall c :: c in s ==> c != '=' && !IsSpace(c)
    ensures Goes(p, s, p.(r1 := Reg(p.r1.stale, p.r1.written + KeyOf(s))), [])
    decreases |s|
  {
    if s == [] {
      assert p.r1.written + KeyOf(s) == p.r1.written;
    } else {
      hide Goes, Step, InKey, IsSpace;
      var c, rest := s[0], s[1..];
      assert c in s && s == [c] + rest && forall x :: x in rest ==> x in s;
      var q := if InKey(c) then p.(r1 := p.r1.Put(c)) else p;
      var r := q.(r1 := Reg(q.r1.stale, q.r1.written + KeyOf(rest)));
      KeyStep(p, c);
      RunKey(q, rest);
      OneThen(p, c, q, rest, r);
      assert p.r1.written + KeyOf(s) == q.r1.written + KeyOf(rest);
    }
  }

  lemma {:induction false} RunValue(p: Parser, s: string)
    requires p.ctx == Idle && p.g2 && p.g1 !in s
    ensures Goes(p, s, p.(r2 := Reg(p.r2.stale, p.r2.written + s)), [])
    decreases |s|
  {
    if s == [] {
      assert p.r2.written + s == p.r2.written;
    } else {
      var q := p.(r2 := p.r2.Put(s[0]));
      assert Step(p, s[0]) == Turn(q, [], Done);
      RunValue(q, s[1..]);
      assert p.r2.written + s == (p.r2.written + [s[0]]) + s[1..];
    }
  }

  /** What is skipped, in a processing instruction. */
  lemma {:induction false} RunSkipped(p: Parser, s: string)
    requires p.ctx == Idle && !p.g2 && p.g1 !in s
    ensures Goes(p, s, p, [])
    decreases |s|
  {
    if s != "" {
      assert Step(p, s[0]) == Turn(p, [], Done);
      RunSkipped(p, s[1..]);
    }
  }

  /** More characters of a value, after its first or after its closing quote. */
  lemma {:induction false} RunTail(p: Parser, s: string)
    requires p.ctx == InAttr && p.cr1 == Lav && forall c :: c in s ==> StartsName(c)
    ensures Goes(p, s, p.(r2 := Reg(p.r2.stale, p.r2.written + s)), [])
    decreases |s|
  {
    if s == [] {
      assert p.r2.written + s == p.r2.written;
    } else {
      var q := p.(r2 := p.r2.Put(s[0]));
      assert Step(p, s[0]) == Turn(q, [], Done) by {
        assert StartsName(s[0]);
      }
      RunTail(q, s[1..]);
      assert p.r2.written + s == (p.r2.written + [s[0]]) + s[1..];
    }
  }

  predicate Blanks(s: string) {
    forall c :: c in s ==> IsSpace(c)
  }

  /** Blanks before a key, after a key, and after an equals sign. */
  lemma {:induction false} RunBlanks(p: Parser, s: string)
    requires p.ctx == InAttr && (p.cr1 == Ini || p.cr1 == Opening || p.cr1 == WantVal || p.cr1 == Val) && Blanks(s)
    ensures Goes(p, s, p, [])
    decreases |s|
  {
    if s != "" {
      assert Step(p, s[0]) == Turn(p, [], Done) by {
        assert IsSpace(s[0]);
      }
      RunBlanks(p, s[1..]);
    }
  }
}
