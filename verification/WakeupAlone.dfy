/** The loop on its own, while no sender is inside: it handles everything, drains
    the pipe and comes to rest in its poll. */
module WakeupAlone {
  import opened Wakeup
  import opened WakeupDelivery

  predicate Alone(run: seq<Step>) {
    forall i :: 0 <= i < |run| ==> run[i].LoopMoves?
  }

  // ---------- the pipe ----------

  /** An eventfd is emptied by one read, any other pipe loses one byte. */
  function Drained(c: Config, pipe: nat): (p: nat) {
    if c.eventfd || pipe == 0 then 0 else pipe - 1
  }

  /** What the pipe holds when the loop is next at the top. */
  function PipeThen(c: Config, s: State): (p: nat) {
    match s.loop
    case Wanting => Drained(c, s.pipe)
    case Polling(_) => Drained(c, s.pipe)
    case Polled(readable) => if readable then Drained(c, s.pipe) else s.pipe
    case Unwanted(readable) => if readable then Drained(c, s.pipe) else s.pipe
    case Invoking(read, _) => if read then Drained(c, s.pipe) else s.pipe
    case Reading => Drained(c, s.pipe)
    case _ => s.pipe
  }

  /** Whether pipe_write_skipped is set then. */
  predicate SkippedThen(s: State) {
    match s.loop
    case Wanting => false
    case Polling(_) => false
    case Polled(_) => false
    case Unwanted(_) => false
    case Invoking(read, custom) => s.skipped && !read && !custom
    case Reading => false
    case Unskipping => false
    case _ => s.skipped
  }

  lemma HandlingLeaves(c: Config, s: State)
    requires Handling(s.loop)
    ensures var n := HandleStep(c, s); n.pipe == s.pipe && n.skipped == s.skipped && (Handling(n.loop) || n.loop == Top)
  {
  }

  lemma PollPipe(c: Config, s: State, mayBlock: bool)
    requires !Handling(s.loop)
    ensures var n := PollStep(c, s, mayBlock);
      if s.loop == Top then PipeThen(c, n) == Drained(c, s.pipe) && !SkippedThen(n)
      else PipeThen(c, n) == PipeThen(c, s) && SkippedThen(n) == SkippedThen(s)
  {
  }

  lemma PipeStep(c: Config, s: State, mayBlock: bool)
    ensures var n := LoopStep(c, s, mayBlock);
      if s.loop == Top then PipeThen(c, n) == Drained(c, s.pipe) && !SkippedThen(n)
      else PipeThen(c, n) == PipeThen(c, s) && SkippedThen(n) == SkippedThen(s)
  {
    hide HandleStep, PollStep;
    if Handling(s.loop) {
      HandlingLeaves(c, s);
    } else {
      PollPipe(c, s, mayBlock);
    }
  }

  lemma {:induction false} RunDrains(c: Config, s: State, run: seq<Step>, t: State)
    requires Reaches(c, s, run, t) && Alone(run) && !SkippedThen(s)
    ensures PipeThen(c, t) <= PipeThen(c, s) && !SkippedThen(t)
    decreases |run|
  {
    if run != [] {
      PipeStep(c, s, run[0].mayBlock);
      RunDrains(c, Next(c, s, run[0]), run[1..], t);
    }
  }

  // ---------- one iteration ----------

  /** With no sender inside: what has been passed over needs no handling. */
  predicate Passed(s: State) {
    && s.senders == map[]
    && (s.loop.Polled? || s.loop.Unwanted? ==> s.flags == {} || s.loop.readable || s.skipped)
    && (s.loop.Invoking? ==> s.flags == {} || s.loop.read || s.loop.custom)
    && (s.loop.Testing? || s.loop.Clearing? || s.loop.Scanning? || s.loop.Hit? || s.loop.Feeding? ==>
          s.loop.f.Async? ==> Sig !in s.flags)
    && (s.loop.Scanning? || s.loop.Hit? || s.loop.Feeding? ==> s.loop.f !in s.flags)
  }

  lemma HandlePasses(c: Config, s: State)
    requires Handling(s.loop) && Passed(s)
    ensures Passed(HandleStep(c, s)) && (HandleStep(c, s).loop == Top ==> HandleStep(c, s).flags == {})
  {
    var t := HandleStep(c, s);
    assert t.senders == s.senders && t.flags <= s.flags;
    assert t.loop == Top ==> Sig !in t.flags && Async !in t.flags;
    forall f | f in t.flags ensures f == Sig || f == Async {
    }
  }

  lemma PollPasses(c: Config, s: State, mayBlock: bool)
    requires Inv(c, s) && !Handling(s.loop) && Passed(s)
    ensures var t := PollStep(c, s, mayBlock); Passed(t) && (t.loop == Top ==> t.flags == {})
  {
    assert forall f :: f in s.flags ==> s.pipe > 0 || s.skipped || ToTest(s.loop, f);
  }

  lemma PassStep(c: Config, s: State, mayBlock: bool)
    requires Inv(c, s) && Passed(s)
    ensures var t := LoopStep(c, s, mayBlock);
      Passed(t) && (t.loop == Top ==> t.flags == {})
  {
    if Handling(s.loop) {
      HandlePasses(c, s);
    } else {
      PollPasses(c, s, mayBlock);
    }
  }

  lemma {:induction false} RunPasses(c: Config, s: State, run: seq<Step>, t: State)
    requires Inv(c, s) && Passed(s) && Reaches(c, s, run, t) && Alone(run)
    ensures Inv(c, t) && Passed(t) && Due(t) == Due(s) && (run != [] && t.loop == Top ==> t.flags == {})
    decreases |run|
  {
    hide Passed, LoopStep, Due, MarksOk, FlagsOk, LoopOk, OwedOk;
    if run != [] {
      StepKeeps(c, s, run[0]);
      PassStep(c, s, run[0].mayBlock);
      DueStep(c, s, run[0]);
      RunPasses(c, Next(c, s, run[0]), run[1..], t);
    }
  }

  lemma SettledAtTop(c: Config, t: State)
    requires Inv(c, t) && t.loop == Top && t.senders == map[]
    ensures Due(t) == t.fed + multiset(t.marks)
    ensures t.flags == {} ==> t.marks == {} && t.owed == {}
  {
    assert forall m :: m in t.marks ==> m.flag in t.flags;
    assert forall m :: m in t.owed ==> m in t.marks;
  }

  /** A run of the loop alone, from the top to the top, handles everything: it
      feeds the watchers of every mark once, leaves nothing to be handled, and
      has read what it could from the pipe. */
  lemma AloneHandlesAll(c: Config, run0: seq<Step>, s: State, run: seq<Step>, t: State)
    requires Reaches(c, INIT, run0, s) && s.loop == Top && s.senders == map[]
    requires Reaches(c, s, run, t) && t.loop == Top && run != [] && Alone(run)
    ensures t.flags == {} && t.marks == {} && t.owed == {} && t.fed == s.fed + multiset(s.marks)
    ensures t.pipe <= Drained(c, s.pipe) && !t.skipped && !t.wanted
  {
    RunKeeps(c, INIT, run0, s);
    PipeStep(c, s, run[0].mayBlock);
    var n := LoopStep(c, s, run[0].mayBlock);
    StepKeeps(c, s, run[0]);
    RunDrains(c, n, run[1..], t);
    hide Inv, Due, LoopStep, Reaches;
    RunPasses(c, s, run, t);
    SettledAtTop(c, s);
    SettledAtTop(c, t);
    assert multiset(t.marks) == multiset{};
  }

  // ---------- coming to rest ----------

  /** Nothing is set, owed or just being fed, and the pipe is empty. */
  predicate Quiet(s: State) {
    && s.senders == map[] && s.pipe == 0 && !s.skipped && s.flags == {} && s.marks == {} && s.owed == {}
    && !s.loop.Hit? && !s.loop.Feeding?
  }

  /** The reads that it takes to empty the pipe. */
  function Reads(c: Config, pipe: nat): (n: nat) {
    if pipe == 0 then 0 else if c.eventfd then 1 else pipe
  }

  /** The iterations to come that have something to do. */
  function Rounds(c: Config, s: State): (n: nat) {
    var p := PipeThen(c, s);
    if p > 0 then Reads(c, p) else if SkippedThen(s) then 1 else 0
  }

  /** No more accesses than this until the loop is quiet. */
  function Unrest(c: Config, s: State): (n: nat) {
    if Quiet(s) then 0 else Work(c, s.loop) + Iteration(c) * Rounds(c, s)
  }

  lemma TopQuiet(c: Config, s: State)
    requires Inv(c, s) && s.senders == map[] && s.loop == Top && s.pipe == 0 && !s.skipped
    ensures Quiet(s)
  {
    assert forall f :: f in s.flags ==> false;
    assert forall m :: m in s.marks ==> m.flag in s.flags;
    assert forall m :: m in s.owed ==> m in s.marks;
  }

  lemma QuietStep(c: Config, s: State, mayBlock: bool)
    requires Quiet(s)
    ensures Quiet(LoopStep(c, s, mayBlock))
  {
  }

  lemma TopStep(c: Config, s: State, mayBlock: bool)
    requires Inv(c, s) && s.senders == map[] && !Quiet(s) && s.loop == Top
    ensures var n := LoopStep(c, s, mayBlock); Rounds(c, n) + 1 == Rounds(c, s) && Work(c, n.loop) + 1 == Iteration(c) + Work(c, s.loop)
  {
    PipeStep(c, s, mayBlock);
    if s.pipe == 0 && !s.skipped {
      TopQuiet(c, s);
    }
  }

  lemma MidStep(c: Config, s: State, mayBlock: bool)
    requires LoopOk(c, s) && s.loop != Top
    ensures var n := LoopStep(c, s, mayBlock); Rounds(c, n) == Rounds(c, s) && Work(c, n.loop) < Work(c, s.loop)
  {
    PipeStep(c, s, mayBlock);
    LoopWorks(c, s, mayBlock);
    hide LoopStep, PipeThen, SkippedThen, Work;
  }

  lemma SendersStayOut(c: Config, s: State, mayBlock: bool)
    ensures LoopStep(c, s, mayBlock).senders == s.senders
  {
  }

  lemma UnrestStep(c: Config, s: State, mayBlock: bool)
    requires Inv(c, s) && s.senders == map[] && !Quiet(s)
    ensures LoopStep(c, s, mayBlock).senders == map[] && Unrest(c, LoopStep(c, s, mayBlock)) < Unrest(c, s)
  {
    SendersStayOut(c, s, mayBlock);
    hide LoopStep, Quiet, Rounds, Iteration, Work, MarksOk, FlagsOk, LoopOk, OwedOk;
    var n := LoopStep(c, s, mayBlock);
    if s.loop == Top {
      TopStep(c, s, mayBlock);
    } else {
      MidStep(c, s, mayBlock);
    }
    LessRest(Iteration(c), Work(c, n.loop), Rounds(c, n), Work(c, s.loop), Rounds(c, s));
  }

  lemma LessRest(i: nat, w: nat, r: nat, w': nat, r': nat)
    requires (r == r' && w < w') || (r + 1 == r' && w + 1 == i + w')
    ensures w + i * r < w' + i * r'
  {
    if r + 1 == r' {
      OneRound(i, r);
    }
  }

  lemma OneRound(a: nat, b: nat)
    ensures a * (b + 1) == a * b + a
  {
  }

  lemma {:induction false} RunQuiets(c: Config, s: State, run: seq<Step>, t: State)
    requires Inv(c, s) && s.senders == map[] && Reaches(c, s, run, t) && Alone(run)
    ensures Inv(c, t) && t.senders == map[] && Due(t) == Due(s) && (Quiet(t) || Unrest(c, t) + |run| <= Unrest(c, s))
    ensures Quiet(s) ==> Quiet(t)
    decreases |run|
  {
    hide Quiet, LoopStep, Due, MarksOk, FlagsOk, LoopOk, OwedOk, Unrest;
    if run != [] {
      StepKeeps(c, s, run[0]);
      DueStep(c, s, run[0]);
      if Quiet(s) {
        QuietStep(c, s, run[0].mayBlock);
        QuietAlone(Next(c, s, run[0]));
      } else {
        UnrestStep(c, s, run[0].mayBlock);
      }
      RunQuiets(c, Next(c, s, run[0]), run[1..], t);
    }
  }

  lemma QuietAlone(s: State)
    requires Quiet(s)
    ensures s.senders == map[]
  {
  }

  lemma UnrestIsBounded(c: Config, s: State)
    requires LoopOk(c, s)
    ensures Unrest(c, s) < Iteration(c) * (Reads(c, s.pipe) + 2)
  {
    WorkIsBounded(c, s);
    var a, b := Iteration(c), Reads(c, s.pipe);
    assert Rounds(c, s) <= b + 1;
    MoreRounds(a, Rounds(c, s), b + 1);
    OneRound(a, b + 1);
  }

  lemma WorkIsBounded(c: Config, s: State)
    requires LoopOk(c, s)
    ensures Work(c, s.loop) < Iteration(c)
  {
  }

  lemma MoreRounds(a: nat, b: nat, d: nat)
    requires b <= d
    ensures a * b <= a * d
  {
  }

  /** Once no sender is inside any more, the loop comes to rest: it reads the
      pipe empty in as many iterations as it takes and two more, by then has fed
      every mark once, and has nothing left to handle. */
  lemma ComesToRest(c: Config, run0: seq<Step>, s: State, run: seq<Step>, t: State)
    requires Reaches(c, INIT, run0, s) && s.senders == map[]
    requires Reaches(c, s, run, t) && Alone(run) && |run| >= Iteration(c) * (Reads(c, s.pipe) + 2)
    ensures Quiet(t) && t.fed == s.fed + multiset(s.marks) + InHand(s.loop)
  {
    RunKeeps(c, INIT, run0, s);
    RunQuiets(c, s, run, t);
    UnrestIsBounded(c, s);
    assert multiset(t.marks) == multiset{};
    NoneInHand(t);
  }

  lemma NoneInHand(t: State)
    requires Quiet(t)
    ensures InHand(t.loop) == multiset{}
  {
  }

  /** Where the loop is while nothing happens. */
  predicate Idling(l: Loop) {
    match l
    case Top => true
    case Wanting => true
    case Polling(_) => true
    case Polled(readable) => !readable
    case Unwanted(readable) => !readable
    case Invoking(read, custom) => !read && !custom
    case _ => false
  }

  lemma IdleStep(c: Config, s: State, mayBlock: bool)
    requires Quiet(s) && Idling(s.loop)
    ensures var n := LoopStep(c, s, mayBlock);
      Quiet(n) && Idling(n.loop) && n.fed == s.fed && (s.loop == Wanting ==> n.loop == Polling(mayBlock))
  {
  }

  /** And then it stays at rest: it polls as long as it may, and pipecb is not
      called until a sender enters. */
  lemma {:induction false} StaysAtRest(c: Config, s: State, run: seq<Step>, t: State)
    requires Quiet(s) && s.loop == Top && Reaches(c, s, run, t) && Alone(run)
    ensures Quiet(t) && Idling(t.loop) && t.fed == s.fed
    ensures t.loop == Wanting ==> LoopStep(c, t, true).loop == Polling(true)
  {
    RunIdles(c, s, run, t);
  }

  lemma {:induction false} RunIdles(c: Config, s: State, run: seq<Step>, t: State)
    requires Quiet(s) && Idling(s.loop) && Reaches(c, s, run, t) && Alone(run)
    ensures Quiet(t) && Idling(t.loop) && t.fed == s.fed
    decreases |run|
  {
    hide Quiet, Idling, LoopStep;
    if run != [] {
      IdleStep(c, s, run[0].mayBlock);
      RunIdles(c, Next(c, s, run[0]), run[1..], t);
    }
  }

  // ---------- senders and a loop that is busy ----------

  /** No sender has found the loop about to poll. */
  ghost predicate NoneWriting(s: State) {
    forall id :: id in s.senders ==> !s.senders[id].SawWanted? && !s.senders[id].Unskipped?
  }

  /** The loop begins an iteration at some access of the run. */
  ghost predicate Begins(c: Config, s: State, run: seq<Step>)
    decreases |run|
  {
    run != [] && Enabled(c, s, run[0]) &&
    ((run[0].LoopMoves? && s.loop == Top) || Begins(c, Next(c, s, run[0]), run[1..]))
  }

  lemma BusyStep(c: Config, s: State, step: Step)
    requires Enabled(c, s, step) && !s.wanted && NoneWriting(s) && !(step.LoopMoves? && s.loop == Top)
    ensures var n := Next(c, s, step); !n.wanted && NoneWriting(n) && n.pipe <= s.pipe
  {
  }

  /** While the loop is not on its way to poll no sender writes to the pipe. */
  lemma {:induction false} NoNeedlessWrites(c: Config, s: State, run: seq<Step>, t: State)
    requires !s.wanted && NoneWriting(s) && Reaches(c, s, run, t) && !Begins(c, s, run)
    ensures t.pipe <= s.pipe
    decreases |run|
  {
    hide Next, NoneWriting;
    if run != [] {
      BusyStep(c, s, run[0]);
      NoNeedlessWrites(c, Next(c, s, run[0]), run[1..], t);
    }
  }

  /** A sender finds its flag clear. */
  predicate Passes(s: State, step: Step) {
    step.SenderMoves? && step.id in s.senders && s.senders[step.id].Marked? && s.senders[step.id].m.flag !in s.flags
  }

  ghost function PassesIn(c: Config, s: State, run: seq<Step>): (n: nat)
    decreases |run|
  {
    if run == [] || !Enabled(c, s, run[0]) then 0
    else (if Passes(s, run[0]) then 1 else 0) + PassesIn(c, Next(c, s, run[0]), run[1..])
  }

  lemma SenderWrites(s: State, id: nat)
    requires id in s.senders
    ensures var n := SenderStep(s, id);
      n.pipe + |PastTest(n)| <= s.pipe + |PastTest(s)| + if Passes(s, SenderMoves(id)) then 1 else 0
  {
    var n, x := SenderStep(s, id), s.senders[id];
    if x.Marked? {
      assert PastTest(n) == if x.m.flag in s.flags then PastTest(s) else PastTest(s) + {id};
    } else if x.Unskipped? || (x.Skipped? && !s.wanted) {
      assert PastTest(n) == PastTest(s) - {id} && id in PastTest(s);
    } else {
      assert PastTest(n) == PastTest(s);
    }
  }

  lemma WriteStep(c: Config, s: State, step: Step)
    requires Enabled(c, s, step)
    ensures var n := Next(c, s, step);
      n.pipe + |PastTest(n)| <= s.pipe + |PastTest(s)| + if Passes(s, step) then 1 else 0
  {
    var n := Next(c, s, step);
    match step
    case SenderEnters(_, _) => assert PastTest(n) == PastTest(s);
    case SenderMoves(id) => SenderWrites(s, id);
    case LoopMoves(mayBlock) => assert PastTest(n) == PastTest(s);
  }

  /** Wake-ups are joined: the pipe is written at most once for every time that a
      sender finds its flag clear. */
  lemma {:induction false} FewWrites(c: Config, s: State, run: seq<Step>, t: State)
    requires Reaches(c, s, run, t)
    ensures t.pipe + |PastTest(t)| <= s.pipe + |PastTest(s)| + PassesIn(c, s, run)
    decreases |run|
  {
    hide Next, Passes, PastTest;
    if run != [] {
      WriteStep(c, s, run[0]);
      FewWrites(c, Next(c, s, run[0]), run[1..], t);
    }
  }

  // ---------- what the loop need not look at ----------

  /** Flag f is set at some point of the run. */
  ghost predicate Shows(c: Config, s: State, run: seq<Step>, f: Flag)
    decreases |run|
  {
    f in s.flags || (run != [] && Enabled(c, s, run[0]) && Shows(c, Next(c, s, run[0]), run[1..], f))
  }

  /** The loop is not looking at the marks of flag f. */
  predicate NotAt(l: Loop, f: Flag) {
    (l.Clearing? || l.Scanning? || l.Hit? || l.Feeding?) ==> l.f != f
  }

  lemma HandlePastFlag(c: Config, s: State, f: Flag, m: Mark)
    requires Handling(s.loop) && f !in s.flags && NotAt(s.loop, f) && m.flag == f
    ensures NotAt(HandleStep(c, s).loop, f) && HandleStep(c, s).fed[m] == s.fed[m]
  {
  }

  lemma PastFlagStep(c: Config, s: State, step: Step, f: Flag, m: Mark)
    requires Enabled(c, s, step) && f !in s.flags && NotAt(s.loop, f) && m.flag == f
    ensures NotAt(Next(c, s, step).loop, f) && Next(c, s, step).fed[m] == s.fed[m]
  {
    if step.LoopMoves? && Handling(s.loop) {
      HandlePastFlag(c, s, f, m);
    }
  }

  /** As long as a flag is clear, the loop does not look at its marks. */
  lemma {:induction false} NoFlagNoScan(c: Config, s: State, run: seq<Step>, t: State, f: Flag, m: Mark)
    requires Reaches(c, s, run, t) && !Shows(c, s, run, f) && NotAt(s.loop, f) && m.flag == f
    ensures t.fed[m] == s.fed[m] && NotAt(t.loop, f)
    decreases |run|
  {
    hide Next, NotAt;
    if run != [] {
      PastFlagStep(c, s, run[0], f, m);
      NoFlagNoScan(c, Next(c, s, run[0]), run[1..], t, f, m);
    }
  }
}
