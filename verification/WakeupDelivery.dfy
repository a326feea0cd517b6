/** What becomes of a mark: its watchers are fed, once for every time it was
    set anew, while senders enter and move at will. */
module WakeupDelivery {
  import opened Wakeup

  // ---------- the accesses left of an iteration ----------

  function AsyncWork(c: Config): (n: nat) { 3 * c.asyncs + 3 }

  function SigWork(c: Config): (n: nat) { 3 * c.signals + 3 + AsyncWork(c) }

  function WorkAfter(c: Config, f: Flag): (n: nat) { if f.Sig? then AsyncWork(c) else 0 }

  /** No more accesses of the loop than this are left until it is at the top again. */
  function Work(c: Config, l: Loop): (n: nat) {
    match l
    case Top => 0
    case Wanting => SigWork(c) + 7
    case Polling(_) => SigWork(c) + 6
    case Polled(_) => SigWork(c) + 5
    case Unwanted(_) => SigWork(c) + 4
    case Invoking(_, _) => SigWork(c) + 3
    case Reading => SigWork(c) + 2
    case Unskipping => SigWork(c) + 1
    case Testing(f) => 3 * c.Count(f) + 3 + WorkAfter(c, f)
    case Clearing(f) => 3 * c.Count(f) + 2 + WorkAfter(c, f)
    case Scanning(f, k) => 3 * k + 1 + WorkAfter(c, f)
    case Hit(f, k) => 3 * k + WorkAfter(c, f)
    case Feeding(f, k) => if k == 0 then WorkAfter(c, f) else 3 * k - 1 + WorkAfter(c, f)
  }

  /** A whole iteration. */
  function Iteration(c: Config): (n: nat) { SigWork(c) + 8 }

  lemma HandleWorks(c: Config, s: State)
    requires LoopOk(c, s) && Handling(s.loop)
    ensures Work(c, HandleStep(c, s).loop) < Work(c, s.loop)
  {
    var l := HandleStep(c, s).loop;
    if s.loop.Testing? || s.loop.Clearing? {
      assert l in {Clearing(s.loop.f), After(s.loop.f), Scanning(s.loop.f, c.Count(s.loop.f))};
    } else if s.loop.Scanning? {
      var f, k := s.loop.f, s.loop.k;
      assert if k == 0 then l == After(f) else l == Hit(f, k) || l == Scanning(f, k - 1);
    } else {
      var f, k := s.loop.f, s.loop.k;
      assert k > 0 && l == if s.loop.Hit? then Feeding(f, k) else Scanning(f, k - 1);
    }
  }

  /** Every access of the loop brings it closer to the top. */
  lemma LoopWorks(c: Config, s: State, mayBlock: bool)
    requires LoopOk(c, s) && s.loop != Top
    ensures Work(c, LoopStep(c, s, mayBlock).loop) < Work(c, s.loop)
  {
    if Handling(s.loop) {
      HandleWorks(c, s);
    }
  }

  // ---------- marks bound to be fed ----------

  predicate BeingFed(l: Loop, m: Mark) {
    l.Feeding? && l.k > 0 && m == Mark(l.f, l.k - 1)
  }

  /** The loop is bound to feed the watchers of m before it is at the top again. */
  ghost predicate Bound(s: State, m: Mark) {
    BeingFed(s.loop, m) || (m in s.marks && (ToScan(s.loop, m) || (m.flag in s.flags && ToTest(s.loop, m.flag))))
  }

  /** Up to the scan of its flag. */
  lemma TestBound(c: Config, s: State, m: Mark)
    requires c.Has(m) && (s.loop.Testing? || s.loop.Clearing?) && Bound(s, m)
    ensures Bound(HandleStep(c, s), m)
  {
    assert s.loop.f == m.flag || (s.loop.f.Sig? && m.flag.Async?);
  }

  /** During a scan. */
  lemma ScanBound(c: Config, s: State, m: Mark)
    requires LoopOk(c, s) && (s.loop.Scanning? || s.loop.Hit? || s.loop.Feeding?) && Bound(s, m)
    ensures HandleStep(c, s).fed[m] > s.fed[m] || Bound(HandleStep(c, s), m)
  {
  }

  lemma HandleBound(c: Config, s: State, m: Mark)
    requires Inv(c, s) && Handling(s.loop) && Bound(s, m)
    ensures HandleStep(c, s).fed[m] > s.fed[m] || Bound(HandleStep(c, s), m)
  {
    assert m in s.marks ==> c.Has(m);
    if s.loop.Testing? || s.loop.Clearing? {
      TestBound(c, s, m);
    } else {
      ScanBound(c, s, m);
    }
  }

  lemma PollBound(c: Config, s: State, mayBlock: bool, m: Mark)
    requires !Handling(s.loop) && Bound(s, m)
    ensures Bound(PollStep(c, s, mayBlock), m)
  {
  }

  lemma SenderBound(s: State, id: nat, m: Mark)
    requires id in s.senders && Bound(s, m)
    ensures Bound(SenderStep(s, id), m)
  {
  }

  /** No access loses a mark that is bound to be fed. */
  lemma BoundStep(c: Config, s: State, step: Step, m: Mark)
    requires Inv(c, s) && Enabled(c, s, step) && Bound(s, m)
    ensures Next(c, s, step).fed[m] > s.fed[m] || Bound(Next(c, s, step), m)
  {
    match step
    case SenderEnters(_, _) =>
    case SenderMoves(id) => SenderBound(s, id, m);
    case LoopMoves(mayBlock) =>
      if Handling(s.loop) {
        HandleBound(c, s, m);
      } else {
        PollBound(c, s, mayBlock, m);
      }
  }

  lemma FedStep(c: Config, s: State, step: Step, m: Mark)
    requires Enabled(c, s, step)
    ensures Next(c, s, step).fed[m] >= s.fed[m]
  {
  }

  /** The loop finds the pipe readable as its poll returns, or
      pipe_write_skipped set as it tests it after the poll. */
  predicate Notices(s: State, step: Step) {
    step.LoopMoves? && ((s.loop.Polling? && s.pipe > 0) || (s.loop.Unwanted? && s.skipped))
  }

  /** It does so at some access of the run. */
  ghost predicate Noticed(c: Config, s: State, run: seq<Step>)
    decreases |run|
  {
    run != [] && Enabled(c, s, run[0]) && (Notices(s, run[0]) || Noticed(c, Next(c, s, run[0]), run[1..]))
  }

  lemma NoticeStep(c: Config, s: State, step: Step, m: Mark)
    requires Enabled(c, s, step) && Notices(s, step) && m in s.marks && m.flag in s.flags
    ensures Bound(Next(c, s, step), m)
  {
  }

  lemma TestMisses(c: Config, s: State, m: Mark)
    requires (s.loop.Testing? || s.loop.Clearing?) && m in s.marks && m.flag in s.flags && !Bound(s, m)
    ensures var t := HandleStep(c, s); m in t.marks && m.flag in t.flags && !Bound(t, m) && t.fed[m] == s.fed[m]
  {
  }

  lemma ScanMisses(c: Config, s: State, m: Mark)
    requires LoopOk(c, s) && (s.loop.Scanning? || s.loop.Hit? || s.loop.Feeding?) && m in s.marks && m.flag in s.flags && !Bound(s, m)
    ensures var t := HandleStep(c, s); m in t.marks && m.flag in t.flags && !Bound(t, m) && t.fed[m] == s.fed[m]
  {
  }

  lemma PollMisses(c: Config, s: State, mayBlock: bool, m: Mark)
    requires !Handling(s.loop) && m in s.marks && m.flag in s.flags && !Bound(s, m) && !Notices(s, LoopMoves(mayBlock))
    ensures var t := PollStep(c, s, mayBlock); m in t.marks && m.flag in t.flags && !Bound(t, m) && t.fed[m] == s.fed[m]
  {
  }

  /** A mark that is set, with its flag, but not bound to be fed stays so until the loop notices. */
  lemma MissStep(c: Config, s: State, step: Step, m: Mark)
    requires LoopOk(c, s) && Enabled(c, s, step) && !Notices(s, step)
    requires m in s.marks && m.flag in s.flags && !Bound(s, m)
    ensures var t := Next(c, s, step); m in t.marks && m.flag in t.flags && !Bound(t, m) && t.fed[m] == s.fed[m]
  {
    if step.LoopMoves? {
      if s.loop.Testing? || s.loop.Clearing? {
        TestMisses(c, s, m);
      } else if Handling(s.loop) {
        ScanMisses(c, s, m);
      } else {
        PollMisses(c, s, step.mayBlock, m);
      }
    }
  }

  lemma {:induction false} RunFed(c: Config, s: State, run: seq<Step>, t: State, m: Mark)
    requires Reaches(c, s, run, t)
    ensures t.fed[m] >= s.fed[m]
    decreases |run|
  {
    hide Next;
    if run != [] {
      FedStep(c, s, run[0], m);
      RunFed(c, Next(c, s, run[0]), run[1..], t, m);
    }
  }

  lemma {:induction false} RunBound(c: Config, s: State, run: seq<Step>, t: State, m: Mark)
    requires Inv(c, s) && Bound(s, m) && Reaches(c, s, run, t)
    ensures t.fed[m] > s.fed[m] || Bound(t, m)
    decreases |run|
  {
    hide Inv, Bound, Next, Enabled;
    if run != [] {
      var n := Next(c, s, run[0]);
      StepKeeps(c, s, run[0]);
      BoundStep(c, s, run[0], m);
      RunFed(c, n, run[1..], t, m);
      FedStep(c, s, run[0], m);
      if Bound(n, m) {
        RunBound(c, n, run[1..], t, m);
      }
    }
  }

  lemma {:induction false} RunNotices(c: Config, s: State, run: seq<Step>, t: State, m: Mark)
    requires Inv(c, s) && m in s.marks && m.flag in s.flags && !Bound(s, m) && Reaches(c, s, run, t)
    ensures if Noticed(c, s, run) then t.fed[m] > s.fed[m] || Bound(t, m) else t.fed[m] == s.fed[m]
    decreases |run|
  {
    hide Bound, Next, Enabled, Notices, MarksOk, FlagsOk, LoopOk, OwedOk;
    if run != [] {
      var n := Next(c, s, run[0]);
      StepKeeps(c, s, run[0]);
      if Notices(s, run[0]) {
        NoticeStep(c, s, run[0], m);
        FedStep(c, s, run[0], m);
        RunBound(c, n, run[1..], t, m);
      } else {
        MissStep(c, s, run[0], m);
        RunNotices(c, n, run[1..], t, m);
      }
    }
  }

  /** When a mark is fed: of a mark that is set, with its flag, in any reachable
      state, the watchers are fed by the time the loop is at the top again if
      and only if the loop was bound to feed them already or notices on the way,
      whatever senders enter and move in between. */
  lemma IterationDelivers(c: Config, run0: seq<Step>, s: State, run: seq<Step>, t: State, m: Mark)
    requires Reaches(c, INIT, run0, s) && m in s.marks && m.flag in s.flags
    requires Reaches(c, s, run, t) && t.loop == Top
    ensures t.fed[m] > s.fed[m] <==> Bound(s, m) || Noticed(c, s, run)
  {
    RunKeeps(c, INIT, run0, s);
    if Bound(s, m) {
      RunBound(c, s, run, t, m);
    } else {
      RunNotices(c, s, run, t, m);
    }
  }

  // ---------- how long it can take ----------

  ghost predicate Pending(s: State, m: Mark) {
    Bound(s, m) || (m in s.marks && m.flag in s.flags)
  }

  predicate BeforePoll(l: Loop) { l.Wanting? || l.Polling? }

  predicate BeforeTest(l: Loop) { BeforePoll(l) || l.Polled? || l.Unwanted? }

  /** No more accesses of the loop than this are left until m is fed. */
  ghost function Wait(c: Config, s: State, m: Mark): (n: nat) {
    Work(c, s.loop) +
    if Bound(s, m) then 0
    else if s.pipe > 0 then (if BeforePoll(s.loop) then 0 else Iteration(c))
    else if BeforeTest(s.loop) then Iteration(c) else 2 * Iteration(c)
  }

  /** The loop tests pipe_write_skipped while a sender that has set its flag is
      still about to set it, or to write to the pipe. */
  ghost predicate Outruns(s: State, step: Step) {
    step.LoopMoves? && s.loop.Unwanted? && Waking(s)
  }

  /** An iteration more for every such test. */
  ghost function Delay(c: Config, s: State, run: seq<Step>): (n: nat)
    decreases |run|
  {
    if run == [] || !Enabled(c, s, run[0]) then 0
    else (if Outruns(s, run[0]) then Iteration(c) else 0) + Delay(c, Next(c, s, run[0]), run[1..])
  }

  ghost function LoopAccesses(run: seq<Step>): (n: nat) {
    if run == [] then 0 else (if run[0].LoopMoves? then 1 else 0) + LoopAccesses(run[1..])
  }

  /** The senders bring a pending mark no further away. */
  lemma SenderWaits(c: Config, s: State, step: Step, m: Mark)
    requires Inv(c, s) && Enabled(c, s, step) && !step.LoopMoves? && Pending(s, m)
    ensures var t := Next(c, s, step); Pending(t, m) && Wait(c, t, m) <= Wait(c, s, m)
  {
    var t := Next(c, s, step);
    assert t.loop == s.loop && s.pipe <= t.pipe && s.marks <= t.marks && s.flags <= t.flags && t.fed == s.fed;
    hide Next, Work, ToScan, ToTest;
  }

  /** Each access of the loop brings it closer, unless the loop outruns a sender. */
  lemma LoopWaits(c: Config, s: State, mayBlock: bool, m: Mark)
    requires Inv(c, s) && Pending(s, m)
    ensures var t := LoopStep(c, s, mayBlock);
      t.fed[m] > s.fed[m] || (Pending(t, m) && Wait(c, t, m) < Wait(c, s, m) + LoopDelay(c, s, m))
  {
    var step, t := LoopMoves(mayBlock), LoopStep(c, s, mayBlock);
    if Bound(s, m) {
      BoundStep(c, s, step, m);
      LoopWorks(c, s, mayBlock);
    } else if Notices(s, step) {
      NoticeStep(c, s, step, m);
      LoopWorks(c, s, mayBlock);
    } else {
      MissStep(c, s, step, m);
      LoopMissWaits(c, s, mayBlock, m);
    }
  }

  /** A pipe that is readable cannot be missed. */
  ghost function LoopDelay(c: Config, s: State, m: Mark): (n: nat) {
    if s.loop.Unwanted? && Waking(s) && !Woken(s, m) then Iteration(c) else 0
  }

  lemma LoopMissWaits(c: Config, s: State, mayBlock: bool, m: Mark)
    requires Inv(c, s) && !Bound(s, m) && m in s.marks && m.flag in s.flags && !Notices(s, LoopMoves(mayBlock))
    requires !Bound(LoopStep(c, s, mayBlock), m)
    ensures Wait(c, LoopStep(c, s, mayBlock), m) < Wait(c, s, m) + LoopDelay(c, s, m)
  {
    assert s.loop.Unwanted? ==> s.pipe > 0 || Waking(s);
    if s.loop != Top {
      LoopWorks(c, s, mayBlock);
    }
  }

  /** What one step costs. */
  ghost function Cost(c: Config, s: State, step: Step, m: Mark): (n: int) {
    if step.LoopMoves? then LoopDelay(c, s, m) - 1 else 0
  }

  lemma NextWaits(c: Config, s: State, step: Step, m: Mark)
    requires Inv(c, s) && Enabled(c, s, step) && Pending(s, m)
    ensures var n := Next(c, s, step);
      n.fed[m] > s.fed[m] || (Pending(n, m) && Wait(c, n, m) <= Wait(c, s, m) + Cost(c, s, step, m))
  {
    hide Inv, Pending, Wait;
    if step.LoopMoves? {
      LoopWaits(c, s, step.mayBlock, m);
    } else {
      SenderWaits(c, s, step, m);
    }
  }

  lemma {:induction false} RunWaits(c: Config, s: State, run: seq<Step>, t: State, m: Mark)
    requires Inv(c, s) && Pending(s, m) && Reaches(c, s, run, t)
    ensures t.fed[m] > s.fed[m] || Wait(c, t, m) + LoopAccesses(run) <= Wait(c, s, m) + Delay(c, s, run)
    decreases |run|
  {
    hide Inv, Pending, Next, Enabled, Wait, Waking, Woken;
    if run != [] {
      var n := Next(c, s, run[0]);
      StepKeeps(c, s, run[0]);
      FedStep(c, s, run[0], m);
      RunFed(c, n, run[1..], t, m);
      NextWaits(c, s, run[0], m);
      if n.fed[m] == s.fed[m] {
        RunWaits(c, n, run[1..], t, m);
      }
    }
  }

  lemma WaitIsShort(c: Config, s: State, m: Mark)
    requires LoopOk(c, s)
    ensures Wait(c, s, m) <= 3 * Iteration(c) && (Woken(s, m) ==> Wait(c, s, m) <= 2 * Iteration(c))
  {
  }

  /** Every mark is fed: once the senders that set a mark have set its flag, its
      watchers are fed within three iterations' accesses of the loop, and one
      more for every time that the loop tests pipe_write_skipped before a
      sender that is about to wake it up has done so, however senders go on. */
  lemma MarkIsFed(c: Config, run0: seq<Step>, s: State, run: seq<Step>, t: State, m: Mark)
    requires Reaches(c, INIT, run0, s) && m in s.marks && (m.flag in s.flags || !Marking(s, m))
    requires Reaches(c, s, run, t) && LoopAccesses(run) > 3 * Iteration(c) + Delay(c, s, run)
    ensures t.fed[m] > s.fed[m]
  {
    RunKeeps(c, INIT, run0, s);
    assert Pending(s, m);
    WaitIsShort(c, s, m);
    RunWaits(c, s, run, t, m);
  }

  // ---------- once the pipe is written ----------

  /** The mark is pending and the pipe, as long as it is needed, is readable. */
  ghost predicate Woken(s: State, m: Mark) {
    Bound(s, m) || (m in s.marks && m.flag in s.flags && s.pipe > 0)
  }

  lemma WokenStep(c: Config, s: State, step: Step, m: Mark)
    requires Inv(c, s) && Enabled(c, s, step) && Woken(s, m)
    ensures Next(c, s, step).fed[m] > s.fed[m] || Woken(Next(c, s, step), m)
  {
    if Bound(s, m) {
      BoundStep(c, s, step, m);
    } else if Notices(s, step) {
      NoticeStep(c, s, step, m);
    } else {
      MissStep(c, s, step, m);
      assert step.LoopMoves? && s.loop.Reading? ==> Bound(s, m);
    }
  }

  lemma {:induction false} RunWoken(c: Config, s: State, run: seq<Step>, t: State, m: Mark)
    requires Inv(c, s) && Woken(s, m) && Reaches(c, s, run, t)
    ensures t.fed[m] > s.fed[m] || Wait(c, t, m) + LoopAccesses(run) <= Wait(c, s, m)
    decreases |run|
  {
    assert Pending(s, m);
    hide Inv, Pending, Next, Enabled, Wait, Waking, Woken;
    if run != [] {
      var n := Next(c, s, run[0]);
      StepKeeps(c, s, run[0]);
      FedStep(c, s, run[0], m);
      RunFed(c, n, run[1..], t, m);
      NextWaits(c, s, run[0], m);
      WokenStep(c, s, run[0], m);
      if n.fed[m] == s.fed[m] {
        RunWoken(c, n, run[1..], t, m);
      }
    }
  }

  /** Once a sender has written to the pipe, every mark that is set, with its
      flag, is fed within two iterations' accesses of the loop, whatever senders
      enter and move, or stop anywhere. */
  lemma WokenIsFed(c: Config, run0: seq<Step>, s: State, run: seq<Step>, t: State, m: Mark)
    requires Reaches(c, INIT, run0, s) && m in s.marks && m.flag in s.flags && s.pipe > 0
    requires Reaches(c, s, run, t) && LoopAccesses(run) > 2 * Iteration(c)
    ensures t.fed[m] > s.fed[m]
  {
    RunKeeps(c, INIT, run0, s);
    WaitIsShort(c, s, m);
    RunWoken(c, s, run, t, m);
  }

  /** The write of a sender wakes the loop up for all marks: each that is set,
      with its flag, at that access is fed within two iterations' accesses of
      the loop from there, whatever senders enter and move, or stop anywhere. */
  lemma WriteDelivers(c: Config, run0: seq<Step>, s: State, id: nat, run: seq<Step>, t: State, m: Mark)
    requires Reaches(c, INIT, run0, s) && id in s.senders && s.senders[id].Unskipped?
    requires m in s.marks && m.flag in s.flags
    requires Reaches(c, s, [SenderMoves(id)] + run, t) && LoopAccesses(run) > 2 * Iteration(c)
    ensures t.fed[m] > s.fed[m]
  {
    var run1, n := [SenderMoves(id)] + run, SenderStep(s, id);
    assert run1[1..] == run;
    RunKeeps(c, INIT, run0, s);
    StepKeeps(c, s, run1[0]);
    WaitIsShort(c, n, m);
    hide Inv;
    RunWoken(c, n, run, t, m);
  }

  // ---------- who can delay a mark ----------

  /** The senders that found their flag clear. */
  ghost function PastTest(s: State): (ids: set<nat>) {
    set id | id in s.senders && !s.senders[id].Marked?
  }

  /** Both flags are set and stay so until m is bound to be fed: the loop has no
      flag left to test before it is at the top again. */
  ghost predicate Held(s: State, m: Mark) {
    Bound(s, m) || (m in s.marks && s.flags == {Sig, Async} && !ToTest(s.loop, Async))
  }

  lemma HandleTestsNone(c: Config, s: State)
    requires Handling(s.loop) && !ToTest(s.loop, Async)
    ensures var n := HandleStep(c, s); n.flags == s.flags && !ToTest(n.loop, Async) && n.senders == s.senders
  {
    assert !s.loop.Testing? && !s.loop.Clearing? && s.loop.f == Async;
  }

  lemma PollTestsNone(c: Config, s: State, mayBlock: bool)
    requires !Handling(s.loop) && !ToTest(s.loop, Async) && !Notices(s, LoopMoves(mayBlock))
    ensures var n := PollStep(c, s, mayBlock); n.flags == s.flags && !ToTest(n.loop, Async) && n.senders == s.senders
  {
  }

  lemma SenderTestsNone(s: State, id: nat)
    requires id in s.senders && s.flags == {Sig, Async}
    ensures var n := SenderStep(s, id); n.flags == s.flags && n.loop == s.loop && PastTest(n) <= PastTest(s)
  {
    var m := s.senders[id].m;
    assert m.flag == Sig || m.flag == Async;
  }

  /** Meanwhile no more senders get past the test of their flag. */
  lemma HeldTestsNone(c: Config, s: State, step: Step)
    requires Enabled(c, s, step) && !Notices(s, step) && s.flags == {Sig, Async} && !ToTest(s.loop, Async)
    ensures var n := Next(c, s, step); n.flags == s.flags && !ToTest(n.loop, Async) && PastTest(n) <= PastTest(s)
  {
    match step
    case SenderEnters(_, _) =>
    case SenderMoves(id) => SenderTestsNone(s, id);
    case LoopMoves(mayBlock) =>
      hide LoopStep;
      if Handling(s.loop) {
        HandleTestsNone(c, s);
      } else {
        PollTestsNone(c, s, mayBlock);
      }
  }

  lemma HeldStep(c: Config, s: State, step: Step, m: Mark)
    requires Inv(c, s) && Enabled(c, s, step) && Held(s, m)
    ensures var n := Next(c, s, step);
      n.fed[m] > s.fed[m] || (Held(n, m) && (Bound(n, m) || PastTest(n) <= PastTest(s)))
  {
    assert m.flag == Sig || m.flag == Async;
    hide Next, Notices, ToTest, PastTest, Bound;
    if Bound(s, m) {
      BoundStep(c, s, step, m);
    } else if Notices(s, step) {
      NoticeStep(c, s, step, m);
    } else {
      MissStep(c, s, step, m);
      HeldTestsNone(c, s, step);
    }
  }

  lemma {:induction false} RunHeld(c: Config, s: State, run: seq<Step>, t: State, m: Mark)
    requires Inv(c, s) && Held(s, m) && Reaches(c, s, run, t)
    ensures t.fed[m] > s.fed[m] || (Held(t, m) && (Bound(t, m) || PastTest(t) <= PastTest(s)))
    decreases |run|
  {
    hide Inv, Held, Bound, PastTest, Next, Enabled;
    if run != [] {
      var n := Next(c, s, run[0]);
      StepKeeps(c, s, run[0]);
      FedStep(c, s, run[0], m);
      RunFed(c, n, run[1..], t, m);
      HeldStep(c, s, run[0], m);
      if n.fed[m] == s.fed[m] {
        if Bound(n, m) {
          RunBound(c, n, run[1..], t, m);
          BoundHeld(t, m);
        } else {
          RunHeld(c, n, run[1..], t, m);
        }
      }
    }
  }

  lemma BoundHeld(s: State, m: Mark)
    ensures Bound(s, m) ==> Held(s, m)
  {
  }

  /** With nobody past that test, the loop cannot outrun a sender. */
  ghost predicate Undelayed(s: State, m: Mark) {
    Held(s, m) && (Bound(s, m) || PastTest(s) == {})
  }

  lemma NoneOutrun(c: Config, s: State, m: Mark)
    requires Undelayed(s, m)
    ensures LoopDelay(c, s, m) == 0 && Pending(s, m)
  {
    assert m.flag == Sig || m.flag == Async;
    if PastTest(s) == {} {
      assert forall id :: id in s.senders && Wakes(s.senders[id]) ==> id in PastTest(s);
    }
  }

  lemma UndelayedStep(c: Config, s: State, step: Step, m: Mark)
    requires Inv(c, s) && Enabled(c, s, step) && Undelayed(s, m)
    ensures var n := Next(c, s, step);
      n.fed[m] > s.fed[m] || (Undelayed(n, m) && Wait(c, n, m) + LoopAccesses([step]) <= Wait(c, s, m))
  {
    NoneOutrun(c, s, m);
    hide Inv, Held, Bound, PastTest, Pending, Next, Wait, LoopDelay;
    HeldStep(c, s, step, m);
    NextWaits(c, s, step, m);
  }

  lemma {:induction false} RunUndelayed(c: Config, s: State, run: seq<Step>, t: State, m: Mark)
    requires Inv(c, s) && Undelayed(s, m) && Reaches(c, s, run, t)
    ensures t.fed[m] > s.fed[m] || Wait(c, t, m) + LoopAccesses(run) <= Wait(c, s, m)
    decreases |run|
  {
    hide MarksOk, FlagsOk, LoopOk, OwedOk, Undelayed, Next, Enabled, Wait;
    if run != [] {
      var n := Next(c, s, run[0]);
      StepKeeps(c, s, run[0]);
      FedStep(c, s, run[0], m);
      RunFed(c, n, run[1..], t, m);
      UndelayedStep(c, s, run[0], m);
      if n.fed[m] == s.fed[m] {
        RunUndelayed(c, n, run[1..], t, m);
      }
    }
  }

  /** The delay ends: while a mark is pending with both flags set, only the
      senders that have found their flag clear by then can be outrun, whoever
      enters later; once these have left, the mark is fed within three
      iterations' accesses of the loop. */
  lemma DelayEnds(c: Config, run0: seq<Step>, s: State, run: seq<Step>, t: State, rest: seq<Step>, u: State, m: Mark)
    requires Reaches(c, INIT, run0, s) && m in s.marks && s.flags == {Sig, Async} && (Bound(s, m) || !ToTest(s.loop, Async))
    requires Reaches(c, s, run, t) && PastTest(s) !! PastTest(t)
    requires Reaches(c, t, rest, u) && LoopAccesses(rest) > 3 * Iteration(c)
    ensures u.fed[m] > s.fed[m]
  {
    RunKeeps(c, INIT, run0, s);
    RunKeeps(c, s, run, t);
    RunHeld(c, s, run, t, m);
    RunFed(c, s, run, t, m);
    RunFed(c, t, rest, u, m);
    if t.fed[m] == s.fed[m] {
      assert PastTest(t) <= PastTest(s) ==> PastTest(t) == {};
      WaitIsShort(c, t, m);
      RunUndelayed(c, t, rest, u, m);
    }
  }

  // ---------- once for every time a mark is set anew ----------

  /** The marks fed so far and those still to be fed. */
  ghost function Due(s: State): (d: multiset<Mark>) {
    s.fed + multiset(s.marks) + InHand(s.loop)
  }

  ghost function InHand(l: Loop): (d: multiset<Mark>) {
    if l.Feeding? && l.k > 0 then multiset{Mark(l.f, l.k - 1)} else multiset{}
  }

  /** The marks that senders set in a run when they were clear. */
  ghost function Raised(c: Config, s: State, run: seq<Step>): (r: multiset<Mark>)
    decreases |run|
  {
    if run == [] || !Enabled(c, s, run[0]) then multiset{}
    else RaisedBy(s, run[0]) + Raised(c, Next(c, s, run[0]), run[1..])
  }

  ghost function RaisedBy(s: State, step: Step): (r: multiset<Mark>) {
    if step.SenderEnters? && step.m !in s.marks then multiset{step.m} else multiset{}
  }

  lemma HitDue(s: State, t: State, m: Mark)
    requires m in s.marks && t.marks == s.marks - {m} && t.fed == s.fed
    requires InHand(s.loop) == multiset{} && InHand(t.loop) == multiset{m}
    ensures Due(t) == Due(s)
  {
    hide InHand;
    assert multiset(s.marks) == multiset(s.marks - {m}) + multiset{m};
  }

  lemma FeedingDue(s: State, t: State, m: Mark)
    requires t.marks == s.marks && t.fed == s.fed + multiset{m}
    requires InHand(s.loop) == multiset{m} && InHand(t.loop) == multiset{}
    ensures Due(t) == Due(s)
  {
    hide InHand;
  }

  lemma SameDue(s: State, t: State)
    requires t.marks == s.marks && t.fed == s.fed && InHand(t.loop) == InHand(s.loop)
    ensures Due(t) == Due(s)
  {
  }

  lemma HitStepDue(c: Config, s: State)
    requires LoopOk(c, s) && s.loop.Hit?
    ensures Due(HandleStep(c, s)) == Due(s)
  {
    hide Due;
    HitDue(s, HandleStep(c, s), Mark(s.loop.f, s.loop.k - 1));
  }

  lemma FeedingStepDue(c: Config, s: State)
    requires LoopOk(c, s) && s.loop.Feeding?
    ensures Due(HandleStep(c, s)) == Due(s)
  {
    hide Due;
    FeedingDue(s, HandleStep(c, s), Mark(s.loop.f, s.loop.k - 1));
  }

  lemma HandleDue(c: Config, s: State)
    requires LoopOk(c, s) && Handling(s.loop)
    ensures Due(HandleStep(c, s)) == Due(s)
  {
    hide Due;
    if s.loop.Hit? {
      HitStepDue(c, s);
    } else if s.loop.Feeding? {
      FeedingStepDue(c, s);
    } else {
      hide LoopOk;
      SameDue(s, HandleStep(c, s));
    }
  }

  lemma EnterDue(s: State, id: nat, m: Mark)
    ensures Due(Enter(s, id, m)) == Due(s) + if m in s.marks then multiset{} else multiset{m}
  {
    if m in s.marks {
      assert s.marks + {m} == s.marks;
    } else {
      assert multiset(s.marks + {m}) == multiset(s.marks) + multiset{m};
    }
  }

  lemma MovesDue(c: Config, s: State, step: Step)
    requires LoopOk(c, s) && Enabled(c, s, step) && !step.SenderEnters?
    ensures Due(Next(c, s, step)) == Due(s)
  {
    if step.LoopMoves? && Handling(s.loop) {
      HandleDue(c, s);
    } else {
      var t := Next(c, s, step);
      assert t.fed == s.fed && t.marks == s.marks && (t.loop == s.loop || (!s.loop.Feeding? && !t.loop.Feeding?));
    }
  }

  lemma DueStep(c: Config, s: State, step: Step)
    requires LoopOk(c, s) && Enabled(c, s, step)
    ensures Due(Next(c, s, step)) == Due(s) + RaisedBy(s, step)
  {
    hide Due;
    if step.SenderEnters? {
      EnterDue(s, step.id, step.m);
    } else {
      MovesDue(c, s, step);
    }
  }

  lemma {:induction false} RunDue(c: Config, s: State, run: seq<Step>, t: State)
    requires Inv(c, s) && Reaches(c, s, run, t)
    ensures Due(t) == Due(s) + Raised(c, s, run)
    decreases |run|
  {
    hide Due, Next, Enabled, RaisedBy, MarksOk, FlagsOk, LoopOk, OwedOk;
    if run != [] {
      StepKeeps(c, s, run[0]);
      DueStep(c, s, run[0]);
      RunDue(c, Next(c, s, run[0]), run[1..], t);
    }
  }

  /** In every run, the watchers of a mark have been fed exactly as often as the
      mark was set when it was clear, but for the marks still set or being fed. */
  lemma FedOnce(c: Config, run: seq<Step>, s: State)
    requires Reaches(c, INIT, run, s)
    ensures Due(s) == Raised(c, INIT, run)
    ensures s.marks == {} && !s.loop.Feeding? ==> s.fed == Raised(c, INIT, run)
  {
    RunKeeps(c, INIT, [], INIT);
    RunDue(c, INIT, run, s);
    assert Due(INIT) == multiset{};
  }

  // ---------- an iteration that misses a mark ----------

  lemma {:induction false} ReachesBoth(c: Config, s: State, a: seq<Step>, u: State, b: seq<Step>, t: State)
    requires Reaches(c, s, a, u) && Reaches(c, u, b, t)
    ensures Reaches(c, s, a + b, t) && LoopAccesses(a + b) == LoopAccesses(a) + LoopAccesses(b)
    decreases |a|
  {
    hide Next, Enabled;
    if a == [] {
      assert a + b == b;
    } else {
      assert (a + b)[1..] == a[1..] + b;
      ReachesBoth(c, Next(c, s, a[0]), a[1..], u, b, t);
    }
  }

  lemma OneMore(c: Config, s: State, run: seq<Step>, t: State, step: Step) returns (u: State)
    requires Reaches(c, s, run, t) && Enabled(c, t, step)
    ensures u == Next(c, t, step) && Reaches(c, s, run + [step], u)
    ensures LoopAccesses(run + [step]) == LoopAccesses(run) + if step.LoopMoves? then 1 else 0
  {
    hide Next, Enabled;
    u := Next(c, t, step);
    assert Reaches(c, u, [step][1..], u) && LoopAccesses([step][1..]) == 0;
    ReachesBoth(c, s, run, t, [step], u);
  }

  const ONE_EACH := Config(true, 1, 1)

  /** An async sender marks its watcher while the loop is at the top, and leaves. */
  lemma MarkedAtTop() returns (run: seq<Step>, s: State)
    ensures Reaches(ONE_EACH, INIT, run, s)
    ensures s == INIT.(skipped := true, flags := {Async}, marks := {Mark(Async, 0)}, owed := {Mark(Async, 0)})
  {
    var c, m := ONE_EACH, Mark(Async, 0);
    run, s := [], INIT;
    s := OneMore(c, INIT, run, s, SenderEnters(0, m));
    run := run + [SenderEnters(0, m)];
    var i := 0;
    while i < 4
      invariant 0 <= i <= 4 && Reaches(c, INIT, run, s) && s.loop == Top && s.pipe == 0 && !s.wanted && s.fed == multiset{}
      invariant s.marks == s.owed == {m} && s.skipped == (i > 2) && s.flags == if i < 2 then {} else {Async}
      invariant s.senders == match i
        case 0 => map[0 := Marked(m)]
        case 1 => map[0 := Tested(m)]
        case 2 => map[0 := Flagged(m)]
        case 3 => map[0 := Skipped(m)]
        case _ => map[]
    {
      s := OneMore(c, INIT, run, s, SenderMoves(0));
      run, i := run + [SenderMoves(0)], i + 1;
    }
  }

  /** Then, as the loop is about to poll, a sender of a signal comes as far as
      clearing pipe_write_skipped again. */
  lemma SkippedCleared(s: State) returns (run: seq<Step>, t: State)
    requires s == INIT.(skipped := true, flags := {Async}, marks := {Mark(Async, 0)}, owed := {Mark(Async, 0)})
    ensures Reaches(ONE_EACH, s, run, t) && t.senders == map[1 := Unskipped(Mark(Sig, 0))] && t.loop == Wanting
    ensures t.pipe == 0 && !t.skipped && t.flags == {Async, Sig} && Mark(Async, 0) in t.marks && t.fed == multiset{}
    ensures LoopAccesses(run) == 1
  {
    var c, n := ONE_EACH, Mark(Sig, 0);
    run, t := [], s;
    t := OneMore(c, s, run, t, LoopMoves(false));
    run := run + [LoopMoves(false)];
    t := OneMore(c, s, run, t, SenderEnters(1, n));
    run := run + [SenderEnters(1, n)];
    var i := 0;
    while i < 5
      invariant 0 <= i <= 5 && Reaches(c, s, run, t) && LoopAccesses(run) == 1
      invariant t.loop == Wanting && t.pipe == 0 && t.wanted && t.fed == multiset{} && Mark(Async, 0) in t.marks
      invariant t.skipped == (i < 5) && t.flags == if i < 2 then {Async} else {Async, Sig}
      invariant t.senders == match i
        case 0 => map[1 := Marked(n)]
        case 1 => map[1 := Tested(n)]
        case 2 => map[1 := Flagged(n)]
        case 3 => map[1 := Skipped(n)]
        case 4 => map[1 := SawWanted(n)]
        case _ => map[1 := Unskipped(n)]
    {
      t := OneMore(c, s, run, t, SenderMoves(1));
      run, i := run + [SenderMoves(1)], i + 1;
    }
  }

  /** The loop polls, finds nothing and is back at the top. */
  lemma NothingFound(s: State) returns (run: seq<Step>, t: State)
    requires s.loop == Wanting && s.pipe == 0 && !s.skipped
    ensures Reaches(ONE_EACH, s, run, t) && t.loop == Top && t.fed == s.fed && t.marks == s.marks && t.flags == s.flags
    ensures LoopAccesses(run) == 5
  {
    run, t := [], s;
    var i := 0;
    while i < 5
      invariant 0 <= i <= 5 && Reaches(ONE_EACH, s, run, t) && LoopAccesses(run) == i
      invariant t.pipe == 0 && !t.skipped && t.fed == s.fed && t.marks == s.marks && t.flags == s.flags
      invariant t.loop == match i
        case 0 => Wanting
        case 1 => Polling(false)
        case 2 => Polled(false)
        case 3 => Unwanted(false)
        case 4 => Invoking(false, false)
        case _ => Top
    {
      t := OneMore(ONE_EACH, s, run, t, LoopMoves(false));
      run, i := run + [LoopMoves(false)], i + 1;
    }
  }

  /** A mark can be missed by one iteration: it is set, with its flag, and its
      sender has left before the loop comes to the top; by the time the loop is
      at the top again, nothing has been fed. */
  lemma OneIterationCanMiss() returns (run0: seq<Step>, s: State, run: seq<Step>, t: State)
    ensures Reaches(ONE_EACH, INIT, run0, s) && s.loop == Top && s.senders == map[]
    ensures Mark(Async, 0) in s.marks && Async in s.flags
    ensures Reaches(ONE_EACH, s, run, t) && t.loop == Top && LoopAccesses(run) == 6
    ensures t.fed == multiset{} && Mark(Async, 0) in t.marks
  {
    run0, s := MarkedAtTop();
    var a, u := SkippedCleared(s);
    var b;
    b, t := NothingFound(u);
    run := a + b;
    ReachesBoth(ONE_EACH, s, a, u, b, t);
  }
}
