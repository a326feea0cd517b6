/** The push parser as an object whose fields change with every character. */
module XmlPushParser {
  import opened Options
  import opened Attributes
  import opened XmlParser

  /** Of the input, i characters have been fed, with the result t. */
  ghost predicate Fed(p: Parser, buf: string, i: nat, t: Turn) {
    i <= |buf| && Run(p, buf) == Joined(t, Run(t.p, buf[i..]))
  }

  lemma FedNone(p: Parser, buf: string)
    ensures Fed(p, buf, 0, Turn(p, [], Done))
  {
    assert buf[0..] == buf;
  }

  lemma FedOne(p: Parser, buf: string, i: nat, t: Turn)
    requires Fed(p, buf, i, t) && i < |buf| && GoesOn(t.outcome)
    ensures var s := Step(t.p, buf[i]);
      if GoesOn(s.outcome) then Fed(p, buf, i + 1, Joined(t, s)) else Run(p, buf) == Joined(t, s)
  {
    hide Step;
    assert buf[i..][1..] == buf[i + 1..];
  }

  lemma FedAll(p: Parser, buf: string, t: Turn)
    requires Fed(p, buf, |buf|, t)
    ensures Run(p, buf) == t
  {
  }

  class PushParser {
    var r_putc: Context
    var cr1: Phase
    var r0: Reg
    var r1: Reg
    var r2: Reg
    var g1: char
    var g2: bool            // p->g2 is either null or &p->r2
    var attrs: Attrs
    const bp: array<Context>
    var sp: int
    var seen: seq<Seen>     // the calls of xobjopen, xputchar and xobjclose

    /** The state as a value; the return stack grows downwards from the end of bp. */
    ghost function State(): (p: Parser)
      requires bp.Length == SLOTS && -1 <= sp < SLOTS
      reads this, bp
    {
      Parser(r_putc, cr1, r0, r1, r2, g1, g2, attrs, bp[sp + 1..])
    }

    ghost predicate Valid()
      reads this, bp
    {
      bp.Length == SLOTS && -1 <= sp < SLOTS && Sound(State())
    }

    /** What a turn does to the state, the calls made and the result. */
    twostate predicate Took(t: Turn, o: Outcome)
      requires bp.Length == SLOTS && -1 <= sp < SLOTS
      reads this, bp
    {
      State() == t.p && seen == old(seen) + t.seen && o == t.outcome
    }

    /** x_parser_init, with whatever the string registers held before. */
    constructor (held0: string, held1: string, held2: string)
      ensures Valid() && Fresh(State()) && seen == [] && fresh(bp)
      ensures State().r0.stale == held0 && State().r1.stale == held1 && State().r2.stale == held2
    {
      r0, r1, r2 := Reg(held0, []), Reg(held1, []), Reg(held2, []);
      bp := new Context[SLOTS](_ => InTxt);
      sp, cr1, g1, g2 := SLOTS - 1, Ini, NUL, false;
      attrs, r_putc, seen := [], InTxt, [];
    }

    /** x_parser_push */
    method Push(v: Context)
      requires bp.Length == SLOTS && 0 <= sp < SLOTS
      modifies `sp, bp
      ensures sp == old(sp) - 1 && bp[sp + 1..] == [v] + old(bp[sp + 1..])
    {
      bp[sp] := v;
      sp := sp - 1;
    }

    /** x_parser_pop */
    method Pop() returns (v: Context)
      requires bp.Length == SLOTS && -1 <= sp < SLOTS - 1
      modifies `sp
      ensures sp == old(sp) + 1 && [v] + bp[sp + 1..] == old(bp[sp + 1..])
    {
      sp := sp + 1;
      v := bp[sp];
    }

    method ClearValues()
      modifies `r1, `r2, `g1, `g2
      ensures r1 == old(r1).Cleared() && r2 == old(r2).Cleared() && g1 == NUL && !g2
    {
      r1 := r1.Cleared();
      r2 := r2.Cleared();
      g1, g2 := NUL, false;
    }

    /** x_parser_ctx_txt */
    method CtxTxt(c: char) returns (o: Outcome)
      requires Valid()
      modifies `r_putc, `seen
      ensures Took(TxtTurn(old(State()), c), o)
    {
      if c == '<' {
        r_putc := InTag;
      } else {
        seen := seen + [Char(c)];
      }
      o := Done;
    }

    /** x_parser_ctx_idle */
    method CtxIdle(c: char) returns (o: Outcome)
      requires Valid() && r_putc == Idle
      modifies `r_putc, `r2, `sp
      ensures -1 <= sp < SLOTS && Took(IdleTurn(old(State()), c), o)
    {
      if g1 != c {
        if g2 {
          r2 := r2.Put(c);
        }
      } else {
        var f := Pop();
        assert old(State()).stack[0] == f && old(State()).stack[1..] == bp[sp + 1..];
        r_putc := f;
      }
      o := Done;
    }

    /** The first branch of x_parser_ctx_tag. */
    method CtxTagIni(c: char) returns (o: Outcome)
      requires Valid() && r_putc == InTag && cr1 == Ini
      modifies `r_putc, `cr1, `r0, `r1, `r2, `g1, `g2, `sp, bp
      ensures -1 <= sp < SLOTS && seen == old(seen) && Took(TagTurn(old(State()), c), o)
    {
      o := Done;
      if StartsName(c) {
        cr1 := Opening;
        r0 := r0.Cleared();
        r0 := r0.Put(c);
      } else if c == '?' {
        g1 := c;
        assert sp == SLOTS - 1;
        Push(InTag);
        r_putc := Idle;
      } else if c == '>' {
        cr1 := Ini;
        r0 := r0.Cleared();
        r_putc := InTxt;
      } else if c == '/' {
        ClearValues();
        cr1 := Closing;
      } else {
        o := Refused;
      }
    }

    /** The second branch of x_parser_ctx_tag. */
    method CtxTagOpening(c: char) returns (o: Outcome)
      requires bp.Length == SLOTS && -1 <= sp < SLOTS && cr1 == Opening
      modifies `r_putc, `cr1, `r0, `r1, `r2, `g1, `g2, `attrs, `seen
      ensures Took(TagTurn(old(State()), c), o)
    {
      o := Done;
      if InName(c) {
        r0 := r0.Put(c);
      } else if c == '/' {
        seen := seen + [Opened(r0.Value(), attrs)];
        ClearValues();
        cr1 := Closing;
      } else if c == '>' {
        seen := seen + [Opened(r0.Value(), attrs)];
        r0 := r0.Cleared();
        ClearValues();
        cr1 := Ini;
        r_putc := InTxt;
      } else if IsSpace(c) {
        attrs := [];
        ClearValues();
        r_putc := InAttr;
      } else {
        o := Bug;
      }
    }

    /** The third branch of x_parser_ctx_tag. */
    method CtxTagClosing(c: char) returns (o: Outcome)
      requires Valid() && cr1 == Closing
      modifies `r_putc, `cr1, `r0, `r1, `r2, `g1, `g2, `seen
      ensures Took(TagTurn(old(State()), c), o)
    {
      o := Done;
      if c == '>' {
        seen := seen + [Closed(r0.Value())];
        cr1 := Ini;
        r0 := r0.Cleared();
        ClearValues();
        r_putc := InTxt;
      } else if InName(c) {
        r0 := r0.Put(c);
      } else {
        o := Refused;
      }
    }

    /** x_parser_ctx_tag; no other phase reaches its exit. */
    method CtxTag(c: char) returns (o: Outcome)
      requires Valid() && r_putc == InTag
      modifies this, bp
      ensures -1 <= sp < SLOTS && Took(TagTurn(old(State()), c), o)
    {
      hide TagTurn;
      if cr1 == Ini {
        o := CtxTagIni(c);
      } else if cr1 == Opening {
        o := CtxTagOpening(c);
      } else if cr1 == Closing {
        o := CtxTagClosing(c);
      } else {
        assert false;
      }
    }

    /** The end of x_parser_ctx_attr. */
    method RetToTagWith(c: char) returns (o: Outcome)
      requires bp.Length == SLOTS && -1 <= sp < SLOTS
      modifies `r_putc, `cr1, `r0, `r1, `r2, `g1, `g2, `attrs, `seen
      ensures Took(RetToTag(old(State()), c), o)
    {
      hide TagTurn;
      r1 := r1.Cleared();
      r2 := r2.Cleared();
      cr1 := Opening;
      r_putc := InTag;
      o := CtxTagOpening(c);
      if o == Refused {
        o := Done;
      }
    }

    method CtxAttrLav(c: char) returns (o: Outcome)
      requires Valid() && r_putc == InAttr && cr1 == Lav
      modifies `r_putc, `cr1, `r0, `r1, `r2, `g1, `g2, `attrs, `seen
      ensures Took(AttrTurn(old(State()), c), o)
    {
      hide RetToTag, SetAttr;
      o := Done;
      if StartsName(c) {
        r2 := r2.Put(c);
      } else if IsSpace(c) {
        attrs := SetAttrIn(r1.Value(), Some(r2.Value()), attrs);
        r1 := r1.Cleared();
        r2 := r2.Cleared();
        cr1 := Ini;
      } else {
        attrs := SetAttrIn(r1.Value(), Some(r2.Value()), attrs);
        o := RetToTagWith(c);
      }
    }

    method CtxAttrVal(c: char) returns (o: Outcome)
      requires Valid() && r_putc == InAttr && cr1 == Val
      modifies `r_putc, `cr1, `r0, `r1, `r2, `g1, `g2, `attrs, `seen, `sp, bp
      ensures -1 <= sp < SLOTS && Took(AttrTurn(old(State()), c), o)
    {
      hide RetToTag;
      o := Done;
      if IsSpace(c) {
      } else if c == '\'' || c == '"' {
        g1 := c;
        cr1 := Lav;
        assert sp == SLOTS - 1;
        Push(InAttr);
        r2 := r2.Cleared();
        g2 := true;
        r_putc := Idle;
      } else if InKey(c) {
        r2 := r2.Put(c);
        cr1 := Lav;
      } else {
        o := RetToTagWith(c);
      }
    }

    method CtxAttrWantVal(c: char) returns (o: Outcome)
      requires Valid() && r_putc == InAttr && cr1 == WantVal
      modifies `r_putc, `cr1, `r0, `r1, `r2, `g1, `g2, `attrs, `seen
      ensures Took(AttrTurn(old(State()), c), o)
    {
      hide RetToTag, DelAttr;
      o := Done;
      if c == '=' {
        cr1 := Val;
      } else if IsSpace(c) {
      } else if StartsName(c) {
        attrs := SetAttrIn(r1.Value(), None, attrs);
        r1 := r1.Cleared();
        r2 := r2.Cleared();
        r1 := r1.Put(c);
        cr1 := Key;
      } else {
        o := RetToTagWith(c);
      }
    }

    method CtxAttrKey(c: char) returns (o: Outcome)
      requires Valid() && r_putc == InAttr && cr1 == Key
      modifies `cr1, `r1
      ensures Took(AttrTurn(old(State()), c), o)
    {
      o := Done;
      if InKey(c) {
        r1 := r1.Put(c);
      } else if c == '=' {
        cr1 := Val;
      } else if IsSpace(c) {
        cr1 := WantVal;
      }
    }

    method CtxAttrIni(c: char) returns (o: Outcome)
      requires Valid() && r_putc == InAttr && (cr1 == Ini || cr1 == Opening)
      modifies `r_putc, `cr1, `r0, `r1, `r2, `g1, `g2, `attrs, `seen
      ensures Took(AttrTurn(old(State()), c), o)
    {
      hide RetToTag;
      o := Done;
      if StartsName(c) {
        r1 := r1.Put(c);
        cr1 := Key;
      } else if !IsSpace(c) {
        o := RetToTagWith(c);
      }
    }

    /** x_parser_ctx_attr */
    method CtxAttr(c: char) returns (o: Outcome)
      requires Valid() && r_putc == InAttr
      modifies this, bp
      ensures -1 <= sp < SLOTS && Took(AttrTurn(old(State()), c), o)
    {
      hide AttrTurn;
      if cr1 == Lav {
        o := CtxAttrLav(c);
      } else if cr1 == Val {
        o := CtxAttrVal(c);
      } else if cr1 == WantVal {
        o := CtxAttrWantVal(c);
      } else if cr1 == Key {
        o := CtxAttrKey(c);
      } else {
        o := CtxAttrIni(c);
      }
    }

    /** p->r_putc(p, c) */
    method RPutc(c: char) returns (o: Outcome)
      requires Valid()
      modifies this, bp
      ensures Valid() && Took(Step(old(State()), c), o) && (o == Done || o == Refused || o == Bug)
    {
      hide TagTurn, AttrTurn, TxtTurn, IdleTurn;
      StepKeepsSound(State(), c);
      match r_putc
      case InTxt => o := CtxTxt(c);
      case InTag => o := CtxTag(c);
      case InAttr => o := CtxAttr(c);
      case Idle => o := CtxIdle(c);
    }

    /** The loop that x_bus feeds a buffer with, which ends with the program. */
    method Feed(buf: string) returns (o: Outcome)
      requires Valid()
      modifies this, bp
      ensures Valid() && Took(Run(old(State()), buf), o)
    {
      hide Step, Run, Sound, Fed;
      o := Done;
      ghost var t := Turn(State(), [], Done);
      FedNone(State(), buf);
      for i := 0 to |buf|
        invariant Valid() && GoesOn(o) && Took(t, o) && Fed(old(State()), buf, i, t)
      {
        ghost var s := Step(t.p, buf[i]);
        var r := RPutc(buf[i]);
        FedOne(old(State()), buf, i, t);
        assert old(seen) + t.seen + s.seen == old(seen) + (t.seen + s.seen);
        t := Joined(t, s);
        if o == Done {
          o := r;
        }
        if r == Bug {
          return;
        }
      }
      FedAll(old(State()), buf, t);
    }
  }
}
