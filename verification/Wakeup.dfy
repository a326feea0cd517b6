/** The wake-up handshake between the event loop and any number of senders,
    which may be other threads or signal handlers, one memory access at a time.
    The fences of the C code make the accesses sequentially consistent. */
module Wakeup {

  /** sig_pending and async_pending */
  datatype Flag = Sig | Async

  /** signals[i].pending or asyncs[i]->sent */
  datatype Mark = Mark(flag: Flag, i: nat)

  /** Is the pipe an eventfd, and how many signal numbers and async watchers are there? */
  datatype Config = Config(eventfd: bool, signals: nat, asyncs: nat) {
    function Count(f: Flag): (res: nat) {
      if f.Sig? then signals else asyncs
    }

    predicate Has(m: Mark) {
      m.i < Count(m.flag)
    }
  }

  /** Where a sender is in ev_async_send or ev_feed_signal: about to ... */
  datatype Sender =
    | Marked(m: Mark)     // test the flag in evpipe_write
    | Tested(m: Mark)     // set the flag, which it found clear
    | Flagged(m: Mark)    // set pipe_write_skipped
    | Skipped(m: Mark)    // test pipe_write_wanted
    | SawWanted(m: Mark)  // clear pipe_write_skipped
    | Unskipped(m: Mark)  // write to the pipe

  /** Where the loop is: about to ... */
  datatype Loop =
    | Top                              // set pipe_write_wanted
    | Wanting                          // test pipe_write_skipped, and poll accordingly
    | Polling(block: bool)             // return from the poll
    | Polled(readable: bool)           // clear pipe_write_wanted
    | Unwanted(readable: bool)         // test pipe_write_skipped, and feed pipe_w accordingly
    | Invoking(read: bool, custom: bool) // invoke pipecb, if it is pending
    | Reading                          // read the pipe
    | Unskipping                       // clear pipe_write_skipped
    | Testing(f: Flag)                 // test the flag
    | Clearing(f: Flag)                // clear the flag
    | Scanning(f: Flag, k: nat)        // test mark k - 1
    | Hit(f: Flag, k: nat)             // clear mark k - 1
    | Feeding(f: Flag, k: nat)         // feed the watchers of mark k - 1

  /** The history variables of the handshake: `owed` are the marks set by a sender
      whose watchers have not been fed since, and `fed` counts all the feeds. */
  datatype State = State(pipe: nat, skipped: bool, wanted: bool, flags: set<Flag>, marks: set<Mark>,
                         senders: map<nat, Sender>, loop: Loop, owed: set<Mark>, fed: multiset<Mark>)

  const INIT := State(0, false, false, {}, {}, map[], Top, {}, multiset{})

  // ---------- the steps ----------

  /** A sender enters: w->sent = 1 or signals[i].pending = 1. */
  function Enter(s: State, id: nat, m: Mark): (res: State) {
    s.(marks := s.marks + {m}, owed := s.owed + {m}, senders := s.senders[id := Marked(m)])
  }

  function Leave(s: State, id: nat): (res: State) {
    s.(senders := s.senders - {id})
  }

  /** The next access of a sender that is inside. */
  function SenderStep(s: State, id: nat): (res: State)
    requires id in s.senders
  {
    match s.senders[id]
    case Marked(m) => if m.flag in s.flags then Leave(s, id) else s.(senders := s.senders[id := Tested(m)])
    case Tested(m) => s.(flags := s.flags + {m.flag}, senders := s.senders[id := Flagged(m)])
    case Flagged(m) => s.(skipped := true, senders := s.senders[id := Skipped(m)])
    case Skipped(m) => if s.wanted then s.(senders := s.senders[id := SawWanted(m)]) else Leave(s, id)
    case SawWanted(m) => s.(skipped := false, senders := s.senders[id := Unskipped(m)])
    case Unskipped(m) => Leave(s, id).(pipe := s.pipe + 1)
  }

  function After(f: Flag): (res: Loop) {
    if f.Sig? then Testing(Async) else Top
  }

  predicate Handling(l: Loop) {
    l.Testing? || l.Clearing? || l.Scanning? || l.Hit? || l.Feeding?
  }

  /** The next access of the loop in ev_run, or at the start of pipecb.  Whether
      the loop may block is decided by things outside the handshake, and so is
      when a poll returns; a poll that returns reports the pipe readable exactly
      when it is. */
  function PollStep(c: Config, s: State, mayBlock: bool): (res: State)
    requires !Handling(s.loop)
  {
    match s.loop
    case Top => s.(wanted := true, loop := Wanting)
    case Wanting => s.(loop := Polling(mayBlock && !s.skipped))
    case Polling(_) => s.(loop := Polled(s.pipe > 0))
    case Polled(readable) => s.(wanted := false, loop := Unwanted(readable))
    case Unwanted(readable) => s.(loop := Invoking(readable, s.skipped))
    case Invoking(read, custom) => s.(loop := if read then Reading else if custom then Unskipping else Top)
    case Reading => s.(pipe := if c.eventfd || s.pipe == 0 then 0 else s.pipe - 1, loop := Unskipping)
    case Unskipping => s.(skipped := false, loop := Testing(Sig))
  }

  /** The next access of the loop in the rest of pipecb. */
  function HandleStep(c: Config, s: State): (res: State)
    requires Handling(s.loop)
  {
    match s.loop
    case Testing(f) => s.(loop := if f in s.flags then Clearing(f) else After(f))
    case Clearing(f) => s.(flags := s.flags - {f}, loop := Scanning(f, c.Count(f)))
    case Scanning(f, k) =>
      if k == 0 then s.(loop := After(f))
      else s.(loop := if Mark(f, k - 1) in s.marks then Hit(f, k) else Scanning(f, k - 1))
    case Hit(f, k) =>
      if k == 0 then s else s.(marks := s.marks - {Mark(f, k - 1)}, loop := Feeding(f, k))
    case Feeding(f, k) =>
      if k == 0 then s
      else s.(owed := s.owed - {Mark(f, k - 1)}, fed := s.fed + multiset{Mark(f, k - 1)}, loop := Scanning(f, k - 1))
  }

  function LoopStep(c: Config, s: State, mayBlock: bool): (res: State) {
    if Handling(s.loop) then HandleStep(c, s) else PollStep(c, s, mayBlock)
  }

  datatype Step = SenderEnters(id: nat, m: Mark) | SenderMoves(id: nat) | LoopMoves(mayBlock: bool)

  predicate Enabled(c: Config, s: State, step: Step) {
    match step
    case SenderEnters(id, m) => id !in s.senders && c.Has(m)
    case SenderMoves(id) => id in s.senders
    case LoopMoves(_) => true
  }

  function Next(c: Config, s: State, step: Step): (res: State)
    requires Enabled(c, s, step)
  {
    match step
    case SenderEnters(id, m) => Enter(s, id, m)
    case SenderMoves(id) => SenderStep(s, id)
    case LoopMoves(mayBlock) => LoopStep(c, s, mayBlock)
  }

  /** The state after a run, every step of which was enabled. */
  ghost predicate Reaches(c: Config, s: State, run: seq<Step>, t: State)
    decreases |run|
  {
    if run == [] then t == s
    else Enabled(c, s, run[0]) && Reaches(c, Next(c, s, run[0]), run[1..], t)
  }

  // ---------- the invariant ----------

  /** Some sender is bound to set the flag of mark m, or to find it set. */
  ghost predicate Marking(s: State, m: Mark) {
    exists id :: id in s.senders && Marks(s.senders[id], m)
  }

  /** Some sender is bound to wake the loop up: to set pipe_write_skipped, or to write. */
  ghost predicate Waking(s: State) {
    exists id :: id in s.senders && Wakes(s.senders[id])
  }

  /** Some sender that has set pipe_write_skipped has not yet acted on it. */
  ghost predicate Skipping(s: State) {
    exists id :: id in s.senders && Skips(s.senders[id])
  }

  /** The scan under way has still to look at mark m. */
  predicate ToScan(l: Loop, m: Mark) {
    (l.Scanning? || l.Hit? || l.Feeding?) && l.f == m.flag && m.i < l.k - if l.Feeding? then 1 else 0
  }

  /** The loop is bound to test flag f before it next sets pipe_write_wanted. */
  predicate ToTest(l: Loop, f: Flag) {
    match l
    case Polled(readable) => readable
    case Unwanted(readable) => readable
    case Invoking(read, custom) => read || custom
    case Reading => true
    case Unskipping => true
    case Testing(g) => f == g || g.Sig?
    case Clearing(g) => f == g || g.Sig?
    case Scanning(g, _) => f.Async? && g.Sig?
    case Hit(g, _) => f.Async? && g.Sig?
    case Feeding(g, _) => f.Async? && g.Sig?
    case _ => false
  }

  /** Every mark is accounted for. */
  ghost predicate MarksOk(c: Config, s: State) {
    forall m :: m in s.marks ==> c.Has(m) && (m.flag in s.flags || Marking(s, m) || ToScan(s.loop, m))
  }

  /** Every flag is accounted for. */
  ghost predicate FlagsOk(s: State) {
    forall f :: f in s.flags ==> s.pipe > 0 || s.skipped || Waking(s) || ToTest(s.loop, f)
  }

  ghost predicate LoopOk(c: Config, s: State) {
    && (s.loop == Polling(true) && s.skipped ==> Skipping(s))
    && (s.loop.Wanting? || s.loop.Polling? || s.loop.Polled? <==> s.wanted)
    && (s.loop.Hit? || s.loop.Feeding? ==> s.loop.k > 0)
    && (s.loop.Scanning? || s.loop.Hit? || s.loop.Feeding? ==> s.loop.k <= c.Count(s.loop.f))
    && (s.loop.Hit? ==> Mark(s.loop.f, s.loop.k - 1) in s.marks)
  }

  /** What is owed is marked, or just being fed. */
  ghost predicate OwedOk(s: State) {
    forall m :: m in s.owed ==> m in s.marks || (s.loop.Feeding? && m.flag == s.loop.f && m.i + 1 == s.loop.k)
  }

  ghost predicate Inv(c: Config, s: State) {
    MarksOk(c, s) && FlagsOk(s) && LoopOk(c, s) && OwedOk(s)
  }

  /** Is this sender bound to set the flag of m, or to find it set? */
  predicate Marks(x: Sender, m: Mark) {
    x == Marked(m) || (x.Tested? && x.m.flag == m.flag)
  }

  predicate Wakes(x: Sender) {
    x.Flagged? || x.SawWanted? || x.Unskipped?
  }

  predicate Skips(x: Sender) {
    x.Skipped? || x.SawWanted?
  }

  /** The senders other than id keep what they were bound to do. */
  lemma OthersStay(s: State, t: State, id: nat)
    requires forall x :: x in s.senders && x != id ==> x in t.senders && t.senders[x] == s.senders[x]
    ensures forall m :: Marking(s, m) ==> Marking(t, m) || (id in s.senders && Marks(s.senders[id], m))
    ensures Waking(s) ==> Waking(t) || (id in s.senders && Wakes(s.senders[id]))
    ensures Skipping(s) ==> Skipping(t) || (id in s.senders && Skips(s.senders[id]))
  {
  }

  lemma SendersStay(s: State, t: State)
    requires s.senders == t.senders
    ensures (Waking(s) ==> Waking(t)) && (Skipping(s) ==> Skipping(t))
    ensures forall m :: Marking(s, m) ==> Marking(t, m)
  {
  }

  lemma EnterKeeps(c: Config, s: State, id: nat, m: Mark)
    requires Inv(c, s) && id !in s.senders && c.Has(m)
    ensures Inv(c, Enter(s, id, m))
  {
    OthersStay(s, Enter(s, id, m), id);
    assert Marks(Enter(s, id, m).senders[id], m);
  }

  /** What a step of sender id leaves alone, and what it does for its mark. */
  lemma SenderFor(s: State, id: nat, m: Mark)
    requires id in s.senders && Marks(s.senders[id], m)
    ensures var t := SenderStep(s, id); m.flag in t.flags || (id in t.senders && Marks(t.senders[id], m))
  {
  }

  lemma SenderKeepsMarks(c: Config, s: State, id: nat)
    requires Inv(c, s) && id in s.senders
    ensures MarksOk(c, SenderStep(s, id))
  {
    var t := SenderStep(s, id);
    assert t.marks == s.marks && t.loop == s.loop && s.flags <= t.flags;
    OthersStay(s, t, id);
    forall m | m in t.marks ensures c.Has(m) && (m.flag in t.flags || Marking(t, m) || ToScan(t.loop, m)) {
      assert m in s.marks && c.Has(m);
      hide SenderStep, ToScan, MarksOk, FlagsOk, LoopOk, OwedOk, Marks;
      if Marks(s.senders[id], m) {
        SenderFor(s, id, m);
      }
    }
  }

  lemma SenderKeepsFlags(c: Config, s: State, id: nat)
    requires Inv(c, s) && id in s.senders
    ensures FlagsOk(SenderStep(s, id))
  {
    hide MarksOk, LoopOk, OwedOk, ToTest;
    var t := SenderStep(s, id);
    OthersStay(s, t, id);
    var x := s.senders[id];
    if x.Tested? || x.Flagged? || (x.Skipped? && s.wanted) || x.SawWanted? {
      assert Wakes(t.senders[id]) || t.skipped;
    } else {
      assert t.flags == s.flags && (x.Unskipped? || !Wakes(x)) && t.skipped == s.skipped;
    }
  }

  lemma SenderKeepsLoop(c: Config, s: State, id: nat)
    requires Inv(c, s) && id in s.senders
    ensures LoopOk(c, SenderStep(s, id))
  {
    hide MarksOk, FlagsOk, OwedOk;
    var t := SenderStep(s, id);
    assert t.loop == s.loop && t.wanted == s.wanted && t.marks == s.marks;
    if s.loop == Polling(true) && t.skipped {
      var x := s.senders[id];
      if x.Flagged? || x.Skipped? {
        assert Skips(t.senders[id]);
      } else {
        assert !Skips(x) && s.skipped;
        OthersStay(s, t, id);
      }
    }
  }

  lemma SenderKeepsOwed(c: Config, s: State, id: nat)
    requires Inv(c, s) && id in s.senders
    ensures OwedOk(SenderStep(s, id))
  {
    OthersStay(s, SenderStep(s, id), id);
  }

  lemma PollKeepsMarks(c: Config, s: State, mayBlock: bool)
    requires Inv(c, s) && !Handling(s.loop)
    ensures MarksOk(c, PollStep(c, s, mayBlock))
  {
    var t := PollStep(c, s, mayBlock);
    SendersStay(s, t);
    assert t.marks == s.marks && t.flags == s.flags;
  }

  lemma HandleKeepsMarks(c: Config, s: State)
    requires Inv(c, s) && Handling(s.loop)
    ensures MarksOk(c, HandleStep(c, s))
  {
    var t := HandleStep(c, s);
    SendersStay(s, t);
    forall m | m in t.marks ensures c.Has(m) && (m.flag in t.flags || Marking(t, m) || ToScan(t.loop, m)) {
      assert m in s.marks && c.Has(m);
      hide MarksOk, FlagsOk, OwedOk, Marking;
    }
  }

  lemma LoopKeepsMarks(c: Config, s: State, mayBlock: bool)
    requires Inv(c, s)
    ensures MarksOk(c, LoopStep(c, s, mayBlock))
  {
    hide Inv, MarksOk;
    if Handling(s.loop) {
      HandleKeepsMarks(c, s);
    } else {
      PollKeepsMarks(c, s, mayBlock);
    }
  }

  lemma PollKeepsFlags(c: Config, s: State, mayBlock: bool)
    requires Inv(c, s) && !Handling(s.loop)
    ensures FlagsOk(PollStep(c, s, mayBlock))
  {
    var t := PollStep(c, s, mayBlock);
    SendersStay(s, t);
    forall f | f in t.flags ensures t.pipe > 0 || t.skipped || Waking(t) || ToTest(t.loop, f) {
      assert f in s.flags;
    }
  }

  lemma HandleKeepsFlags(c: Config, s: State)
    requires Inv(c, s) && Handling(s.loop)
    ensures FlagsOk(HandleStep(c, s))
  {
    var t := HandleStep(c, s);
    SendersStay(s, t);
    assert t.pipe == s.pipe && t.skipped == s.skipped && t.flags <= s.flags;
  }

  lemma LoopKeepsFlags(c: Config, s: State, mayBlock: bool)
    requires Inv(c, s)
    ensures FlagsOk(LoopStep(c, s, mayBlock))
  {
    hide Inv, FlagsOk;
    if Handling(s.loop) {
      HandleKeepsFlags(c, s);
    } else {
      PollKeepsFlags(c, s, mayBlock);
    }
  }

  lemma LoopKeepsLoop(c: Config, s: State, mayBlock: bool)
    requires Inv(c, s)
    ensures LoopOk(c, LoopStep(c, s, mayBlock))
  {
    if Handling(s.loop) {
      HandleKeepsLoop(c, s);
    } else {
      SendersStay(s, PollStep(c, s, mayBlock));
    }
  }

  lemma HandleKeepsLoop(c: Config, s: State)
    requires LoopOk(c, s) && OwedOk(s) && Handling(s.loop)
    ensures LoopOk(c, HandleStep(c, s))
  {
  }

  lemma LoopKeepsOwed(c: Config, s: State, mayBlock: bool)
    requires Inv(c, s)
    ensures OwedOk(LoopStep(c, s, mayBlock))
  {
    if Handling(s.loop) {
      HandleKeepsOwed(c, s);
    } else {
      SendersStay(s, PollStep(c, s, mayBlock));
    }
  }

  lemma HandleKeepsOwed(c: Config, s: State)
    requires LoopOk(c, s) && OwedOk(s) && Handling(s.loop)
    ensures OwedOk(HandleStep(c, s))
  {
  }

  lemma StepKeeps(c: Config, s: State, step: Step)
    requires Inv(c, s) && Enabled(c, s, step)
    ensures Inv(c, Next(c, s, step))
  {
    match step
    case SenderEnters(id, m) => EnterKeeps(c, s, id, m);
    case SenderMoves(id) =>
      SenderKeepsMarks(c, s, id);
      SenderKeepsFlags(c, s, id);
      SenderKeepsLoop(c, s, id);
      SenderKeepsOwed(c, s, id);
    case LoopMoves(mayBlock) =>
      LoopKeepsMarks(c, s, mayBlock);
      LoopKeepsFlags(c, s, mayBlock);
      LoopKeepsLoop(c, s, mayBlock);
      LoopKeepsOwed(c, s, mayBlock);
  }

  lemma {:induction false} RunKeeps(c: Config, s: State, run: seq<Step>, t: State)
    requires Inv(c, s) && Reaches(c, s, run, t)
    ensures Inv(c, t)
    decreases |run|
  {
    if run != [] {
      StepKeeps(c, s, run[0]);
      RunKeeps(c, Next(c, s, run[0]), run[1..], t);
    }
  }

  // ---------- what it is for ----------

  /** No lost wake-up: in every reachable state in which the loop blocks and no
      sender is inside, anything still to be handled has made the pipe readable. */
  lemma NoLostWakeup(c: Config, run: seq<Step>, s: State)
    requires Reaches(c, INIT, run, s)
    requires s.loop == Polling(true) && s.senders == map[]
    requires s.flags != {} || s.marks != {} || s.owed != {}
    ensures s.pipe > 0
  {
    RunKeeps(c, INIT, run, s);
    if m :| m in s.owed {
      assert m in s.marks;
    }
    if m :| m in s.marks {
      assert m.flag in s.flags;
    }
  }
}
