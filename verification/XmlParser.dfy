/** The XML push parser.  A char is a byte; those from 0x80 on are the negative
    ones of the C code. */
module XmlParser {
  import opened Options
  import opened Attributes

  datatype Context = InTxt | InTag | InAttr | Idle

  datatype Phase = Ini | Opening | Closing | Key | WantVal | Val | Lav

  /** A string register: the bytes written since it was last cleared, and the C
      string that it still holds as long as there are none. */
  datatype Reg = Reg(stale: string, written: string) {
    function Value(): (v: string) {
      if written == [] then stale else CString(written)
    }

    function Cleared(): (r: Reg) {
      Reg(Value(), [])
    }

    function Put(c: char): (r: Reg) {
      Reg(stale, written + [c])
    }
  }

  const NUL: char := '\0'

  /** Up to the first NUL. */
  function CString(s: string): (v: string) {
    if s == [] || s[0] == NUL then [] else [s[0]] + CString(s[1..])
  }

  lemma {:induction false} NoNulInside(s: string)
    requires NUL !in s
    ensures CString(s) == s
  {
    if s != [] {
      NoNulInside(s[1..]);
    }
  }

  /** What the callbacks are told. */
  datatype Seen = Opened(name: string, attrs: Attrs) | Char(c: char) | Closed(name: string)

  /** What r_putc comes to: Refused is a result of -1, Bug is BUG(), Exit is
      exit(-1), Overrun is an access outside of the return stack. */
  datatype Outcome = Done | Refused | Bug | Exit | Overrun

  datatype Parser = Parser(ctx: Context, cr1: Phase, r0: Reg, r1: Reg, r2: Reg, g1: char, g2: bool, attrs: Attrs,
                           stack: seq<Context>)
  {
    function NoValues(): (p: Parser) {
      this.(r1 := r1.Cleared(), r2 := r2.Cleared(), g1 := NUL, g2 := false)
    }
  }

  datatype Turn = Turn(p: Parser, seen: seq<Seen>, outcome: Outcome)

  const SLOTS := 64

  predicate IsAlpha(c: char) { 'a' <= c <= 'z' || 'A' <= c <= 'Z' }
  predicate IsDigit(c: char) { '0' <= c <= '9' }
  predicate IsHigh(c: char) { c as int >= 0x80 }

  /** strchr also finds the terminator of the string it searches. */
  predicate IsSpace(c: char) { c == '\t' || c == '\r' || c == '\n' || c == ' ' || c == NUL }

  predicate StartsName(c: char) { IsAlpha(c) || c == '_' || c == ':' || IsHigh(c) }
  predicate InKey(c: char) { StartsName(c) || IsDigit(c) }
  predicate InName(c: char) { InKey(c) || c == '-' || c == '.' }

  const CAPITALS := "ABCDEFGHIJKLMNOPQRSTUVWXYZ"
  const LETTERS := "abcdefghijklmnopqrstuvwxyz"

  lemma CapitalsAre(c: char)
    ensures 'A' <= c <= 'Z' <==> c in CAPITALS
  {
    assert forall i :: 0 <= i < 26 ==> CAPITALS[i] == ('A' as int + i) as char;
    if 'A' <= c <= 'Z' {
      assert CAPITALS[c as int - 'A' as int] == c;
    }
  }

  lemma LettersAre(c: char)
    ensures 'a' <= c <= 'z' <==> c in LETTERS
  {
    assert forall i :: 0 <= i < 26 ==> LETTERS[i] == ('a' as int + i) as char;
    if 'a' <= c <= 'z' {
      assert LETTERS[c as int - 'a' as int] == c;
    }
  }

  /** The alphabets of the markup. */
  lemma Alphabets(c: char)
    ensures StartsName(c) <==> c in CAPITALS || c in LETTERS || c == '_' || c == ':' || c as int >= 0x80
    ensures InKey(c) <==> StartsName(c) || c in ['0', '1', '2', '3', '4', '5', '6', '7', '8', '9']
    ensures InName(c) <==> InKey(c) || c == '-' || c == '.'
    ensures IsSpace(c) <==> c in ['\t', '\r', '\n', ' ', NUL]
  {
    CapitalsAre(c);
    LettersAre(c);
  }

  // ---------- one character ----------

  /** x_parser_ctx_txt */
  function TxtTurn(p: Parser, c: char): (t: Turn) {
    if c == '<' then Turn(p.(ctx := InTag), [], Done) else Turn(p, [Char(c)], Done)
  }

  /** x_parser_ctx_idle */
  function IdleTurn(p: Parser, c: char): (t: Turn) {
    if p.g1 != c then Turn(if p.g2 then p.(r2 := p.r2.Put(c)) else p, [], Done)
    else if p.stack == [] then Turn(p, [], Overrun)
    else Turn(p.(ctx := p.stack[0], stack := p.stack[1..]), [], Done)
  }

  /** x_parser_push and the switch to the idle context. */
  function Skip(p: Parser, back: Context): (t: Turn) {
    if |p.stack| == SLOTS then Turn(p, [], Overrun)
    else Turn(p.(ctx := Idle, stack := [back] + p.stack), [], Done)
  }

  /** x_parser_ctx_tag */
  function TagTurn(p: Parser, c: char): (t: Turn) {
    match p.cr1
    case Ini =>
      if StartsName(c) then Turn(p.(cr1 := Opening, r0 := p.r0.Cleared().Put(c)), [], Done)
      else if c == '?' then Skip(p.(g1 := c), InTag)
      else if c == '>' then Turn(p.(r0 := p.r0.Cleared(), ctx := InTxt), [], Done)
      else if c == '/' then Turn(p.NoValues().(cr1 := Closing), [], Done)
      else Turn(p, [], Refused)
    case Opening =>
      if InName(c) then Turn(p.(r0 := p.r0.Put(c)), [], Done)
      else if c == '/' then Turn(p.NoValues().(cr1 := Closing), [Opened(p.r0.Value(), p.attrs)], Done)
      else if c == '>' then
        Turn(p.NoValues().(r0 := p.r0.Cleared(), cr1 := Ini, ctx := InTxt), [Opened(p.r0.Value(), p.attrs)], Done)
      else if IsSpace(c) then Turn(p.NoValues().(attrs := [], ctx := InAttr), [], Done)
      else Turn(p, [], Bug)
    case Closing =>
      if c == '>' then
        Turn(p.NoValues().(r0 := p.r0.Cleared(), cr1 := Ini, ctx := InTxt), [Closed(p.r0.Value())], Done)
      else if InName(c) then Turn(p.(r0 := p.r0.Put(c)), [], Done)
      else Turn(p, [], Refused)
    case _ => Turn(p, [], Exit)
  }

  /** The end of x_parser_ctx_attr, whose own result is dropped. */
  function RetToTag(p: Parser, c: char): (t: Turn) {
    var t := TagTurn(p.(r1 := p.r1.Cleared(), r2 := p.r2.Cleared(), cr1 := Opening, ctx := InTag), c);
    if t.outcome == Refused then t.(outcome := Done) else t
  }

  /** x_parser_ctx_attr */
  function AttrTurn(p: Parser, c: char): (t: Turn) {
    match p.cr1
    case Lav =>
      if StartsName(c) then Turn(p.(r2 := p.r2.Put(c)), [], Done)
      else
        var q := p.(attrs := SetAttr(p.attrs, p.r1.Value(), p.r2.Value()));
        if IsSpace(c) then Turn(q.(r1 := p.r1.Cleared(), r2 := p.r2.Cleared(), cr1 := Ini), [], Done)
        else RetToTag(q, c)
    case Val =>
      if IsSpace(c) then Turn(p, [], Done)
      else if c == '\'' || c == '"' then Skip(p.(g1 := c, cr1 := Lav, r2 := p.r2.Cleared(), g2 := true), InAttr)
      else if InKey(c) then Turn(p.(r2 := p.r2.Put(c), cr1 := Lav), [], Done)
      else RetToTag(p, c)
    case WantVal =>
      if c == '=' then Turn(p.(cr1 := Val), [], Done)
      else if IsSpace(c) then Turn(p, [], Done)
      else if StartsName(c) then
        Turn(p.(attrs := DelAttr(p.attrs, p.r1.Value()), r1 := p.r1.Cleared().Put(c), r2 := p.r2.Cleared(), cr1 := Key),
             [], Done)
      else RetToTag(p, c)
    case Key =>
      if InKey(c) then Turn(p.(r1 := p.r1.Put(c)), [], Done)
      else if c == '=' then Turn(p.(cr1 := Val), [], Done)
      else if IsSpace(c) then Turn(p.(cr1 := WantVal), [], Done)
      else Turn(p, [], Done)
    case _ =>
      if StartsName(c) then Turn(p.(r1 := p.r1.Put(c), cr1 := Key), [], Done)
      else if IsSpace(c) then Turn(p, [], Done)
      else RetToTag(p, c)
  }

  /** r_putc */
  function Step(p: Parser, c: char): (t: Turn) {
    match p.ctx
    case InTxt => TxtTurn(p, c)
    case InTag => TagTurn(p, c)
    case InAttr => AttrTurn(p, c)
    case Idle => IdleTurn(p, c)
  }

  // ---------- whole inputs ----------

  /** One turn after another; the outcome is the first that is not Done. */
  function Joined(t: Turn, u: Turn): (r: Turn) {
    Turn(u.p, t.seen + u.seen, if t.outcome == Done then u.outcome else t.outcome)
  }

  predicate GoesOn(o: Outcome) { o == Done || o == Refused }

  /** Everything fed, up to the end of the input or of the program. */
  function Run(p: Parser, input: string): (t: Turn)
    decreases |input|
  {
    if input == [] then Turn(p, [], Done)
    else
      var t := Step(p, input[0]);
      if GoesOn(t.outcome) then Joined(t, Run(t.p, input[1..])) else t
  }

  lemma {:induction false} RunBoth(p: Parser, a: string, b: string)
    requires Run(p, a).outcome == Done
    ensures Run(p, a + b) == Joined(Run(p, a), Run(Run(p, a).p, b))
    decreases |a|
  {
    hide Step;
    if a == [] {
      assert a + b == b;
    } else {
      var t := Step(p, a[0]);
      assert (a + b)[1..] == a[1..] + b;
      RunBoth(t.p, a[1..], b);
    }
  }

  /** A parser right after x_parser_init, whatever its registers held before. */
  predicate Fresh(p: Parser) {
    && p.ctx == InTxt && p.cr1 == Ini && p.attrs == [] && p.stack == [] && p.g1 == NUL && !p.g2
    && p.r0.written == [] && p.r1.written == [] && p.r2.written == []
  }

  /** Between two characters.  The return stack holds one context, exactly while
      characters are being skipped or collected up to a terminator. */
  predicate Sound(p: Parser) {
    && (p.ctx == Idle <==> |p.stack| == 1) && (p.ctx != Idle <==> p.stack == [])
    && (p.ctx == InTxt ==> p.cr1 == Ini)
    && (p.ctx == InTag ==> p.cr1 == Ini || p.cr1 == Opening || p.cr1 == Closing)
    && (p.ctx == InAttr ==> p.cr1 != Closing)
    && (p.ctx == Idle && p.stack[0] == InTag ==> p.cr1 == Ini && p.g1 == '?' && !p.g2 && p.r0.written == [])
    && (p.ctx == Idle && p.stack[0] != InTag ==> p.stack[0] == InAttr && p.cr1 == Lav && (p.g1 == '\'' || p.g1 == '"') && p.g2)
    && (p.ctx == InTxt || (p.ctx == InTag && p.cr1 != Opening) ==> !p.g2)
    && (p.ctx == InTxt || (p.ctx == InTag && p.cr1 == Ini) ==> p.r0.written == [])
  }

  lemma TagKeepsSound(p: Parser, c: char)
    requires Sound(p) && p.ctx == InTag
    ensures TagTurn(p, c).outcome in {Done, Refused, Bug} && Sound(TagTurn(p, c).p)
    ensures TagTurn(p, c).outcome in {Refused, Bug} ==> TagTurn(p, c).p == p
  {
  }

  lemma RetKeepsSound(p: Parser, c: char)
    requires p.ctx == InAttr && p.stack == []
    ensures RetToTag(p, c).outcome in {Done, Bug} && Sound(RetToTag(p, c).p)
  {
    TagKeepsSound(p.(r1 := p.r1.Cleared(), r2 := p.r2.Cleared(), cr1 := Opening, ctx := InTag), c);
  }

  lemma AttrKeepsSound(p: Parser, c: char)
    requires Sound(p) && p.ctx == InAttr
    ensures AttrTurn(p, c).outcome in {Done, Bug} && Sound(AttrTurn(p, c).p)
  {
    hide RetToTag, SetAttr, DelAttr, StartsName, InKey, IsSpace;
    RetKeepsSound(p, c);
    RetKeepsSound(p.(attrs := SetAttr(p.attrs, p.r1.Value(), p.r2.Value())), c);
  }

  lemma StepKeepsSound(p: Parser, c: char)
    requires Sound(p)
    ensures Step(p, c).outcome in {Done, Refused, Bug} && Sound(Step(p, c).p)
  {
    if p.ctx == InTag {
      TagKeepsSound(p, c);
    } else if p.ctx == InAttr {
      AttrKeepsSound(p, c);
    }
  }

  /** For every input, the stack is neither overrun nor popped empty and exit is
      not reached. */
  lemma {:induction false} RunKeepsSound(p: Parser, input: string)
    requires Sound(p)
    ensures Run(p, input).outcome in {Done, Refused, Bug} && Sound(Run(p, input).p)
    decreases |input|
  {
    if input != [] {
      StepKeepsSound(p, input[0]);
      RunKeepsSound(Step(p, input[0]).p, input[1..]);
    }
  }
}
