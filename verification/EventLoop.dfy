/** The event loop: starting and stopping timers, making expired timers
    pending, and calling back. */
module EventLoop {
  import opened Options
  import opened Sequences
  import opened EventMask
  import opened TimerHeap
  import opened PendingQueue
  import opened Periodic

  /** The time fields of a watcher; `on` says whether it is started. */
  datatype Run = Run(on: bool, at: real, repeat: real, offset: real, interval: real) {

    function StartTimer(now: real): (res: Run) {
      if on then this else this.(on := true, at := at + now)
    }

    function StopTimer(now: real): (res: Run) {
      if on then this.(on := false, at := at - now) else this
    }

    function AgainTimer(now: real): (res: Run) {
      if repeat != 0.0 then this.(on := true, at := now + repeat) else StopTimer(now)
    }

    /** What becomes of an expired timer. */
    function ExpireTimer(now: real): (res: Run) {
      if repeat != 0.0 then this.(at := if at + repeat < now then now else at + repeat) else StopTimer(now)
    }
  }

  /** A timer that is stopped keeps the time that is left, and has it again when
      it is started later. */
  lemma PauseAndResume(r: Run, now: real, later: real)
    requires r.on
    ensures !r.StopTimer(now).on && r.StopTimer(now).at == r.at - now
    ensures var q := r.StopTimer(now).StartTimer(later); q.on && q.at - later == r.at - now && q == r.(at := q.at)
  {
  }

  /** A repeating timer is due a repeat from now on when started again, and at
      its next repeat, but not in the past, after it has expired. */
  lemma Repeats(r: Run, now: real)
    requires r.repeat > 0.0
    ensures var q := r.AgainTimer(now); q.on && q.at - now == r.repeat && q == r.(on := true, at := q.at)
    ensures var q := r.ExpireTimer(now); q.on == r.on && q.at >= now && q.at - r.at >= r.repeat && q == r.(at := q.at)
    ensures r.ExpireTimer(now).at == now || r.ExpireTimer(now).at - r.at == r.repeat
  {
  }

  lemma DoesNotRepeat(r: Run, now: real)
    requires r.repeat == 0.0
    ensures r.AgainTimer(now) == r.StopTimer(now) == r.ExpireTimer(now) && !r.StopTimer(now).on
  {
  }

  predicate Scheduled(w: Watcher, r: Run) {
    w.rescheduler || r.interval != 0.0
  }

  /** The expiry a periodic watcher is given when it is started or has expired. */
  ghost function NextExpiry(w: Watcher, r: Run, now: real): (res: real) {
    if w.rescheduler then w.reschedule(now)
    else if r.interval > 0.0 then RecalcAt(r.offset, r.interval, now)
    else r.offset
  }

  /** What the expiry of a periodic watcher should be: what its callback answers,
      or its next occurrence if it has an interval, or its offset. */
  ghost predicate DueAt(w: Watcher, offset: real, interval: real, now: real, at: real) {
    if w.rescheduler then at == w.reschedule(now)
    else if interval == 0.0 then at == offset
    else IsNext(offset, interval, now, at)
  }

  /** Intervals for which the next occurrence is always found. */
  ghost predicate LongEnough(w: Watcher, interval: real) {
    w.rescheduler || interval == 0.0 || interval >= MIN_INTERVAL || Divides(interval)
  }

  /** It is, unless the interval is too short. */
  lemma NextIsDue(w: Watcher, r: Run, now: real)
    requires r.interval >= 0.0 && LongEnough(w, r.interval)
    ensures DueAt(w, r.offset, r.interval, now, NextExpiry(w, r, now))
  {
    hide IsNext, RecalcAt;
    if r.interval > 0.0 && !w.rescheduler {
      AlwaysNextFor(r.offset, r.interval);
    }
  }

  ghost function StartPeriodic(w: Watcher, r: Run, now: real): (res: Run) {
    if r.on then r else r.(on := true, at := NextExpiry(w, r, now))
  }

  /** Is the watcher stopped when it expires? */
  ghost predicate OneShot(k: Kind, w: Watcher, r: Run) {
    if k == Timer then r.repeat == 0.0 else !Scheduled(w, r)
  }

  /** What becomes of a watcher that has expired. */
  ghost function Expire(k: Kind, w: Watcher, r: Run, now: real): (res: Run) {
    if k == Timer then r.ExpireTimer(now)
    else if Scheduled(w, r) then r.(at := NextExpiry(w, r, now))
    else r.(on := false)
  }

  /** A periodic watcher that has expired is stopped if there is nothing that it
      could be due at, and is due next otherwise. */
  lemma PeriodicExpires(w: Watcher, r: Run, now: real)
    requires r.interval >= 0.0 && LongEnough(w, r.interval)
    ensures var q := Expire(Periodic, w, r, now);
      && q.on == (r.on && (w.rescheduler || r.interval != 0.0))
      && (q.on ==> DueAt(w, r.offset, r.interval, now, q.at))
      && q == r.(on := q.on, at := q.at)
  {
    hide LongEnough, DueAt, NextExpiry;
    NextIsDue(w, r, now);
  }

  ghost function Rescheduled(w: Watcher, r: Run, now: real): (res: Run) {
    if r.on && Scheduled(w, r) then r.(at := NextExpiry(w, r, now)) else r
  }

  // ---------- the order of expiry ----------

  /** E lists the watchers D, the ones of s that were first to expire, earliest first. */
  ghost predicate Extracted(E: seq<Watcher>, D: set<Watcher>, s: map<Watcher, Run>, now: real) {
    && Distinct(E)
    && (forall i :: 0 <= i < |E| ==> E[i] in D)
    && (forall w :: w in D ==> w in E && w in s && s[w].on && s[w].at < now)
    && (forall i, j :: 0 <= i < j < |E| ==> s[E[i]].at <= s[E[j]].at)
    && forall w, x :: w in D && x in s && x !in D && s[x].on ==> s[w].at <= s[x].at
  }

  lemma ExtractNext(E: seq<Watcher>, D: set<Watcher>, s: map<Watcher, Run>, now: real, w: Watcher)
    requires Extracted(E, D, s, now) && w in s && w !in D && s[w].on && s[w].at < now
    requires forall x :: x in s && x !in D && s[x].on ==> s[w].at <= s[x].at
    ensures Extracted(E + [w], D + {w}, s, now)
  {
    var F := E + [w];
    assert F[|E|] == w;
    forall x | x in D + {w} ensures x in F {
      if x != w {
        var i :| 0 <= i < |E| && E[i] == x;
        assert F[i] == x;
      }
    }
  }

  ghost function OneShots(k: Kind, s: map<Watcher, Run>, D: set<Watcher>): (res: set<Watcher>) {
    set w | w in D && w in s && OneShot(k, w, s[w])
  }

  /** The watchers that have expired. */
  ghost function Expired(s: map<Watcher, Run>, now: real): (res: set<Watcher>) {
    set w | w in s && s[w].on && s[w].at < now
  }

  /** The watchers D have expired and been dealt with, the others have not. */
  ghost function Advance(k: Kind, s: map<Watcher, Run>, D: set<Watcher>, now: real): (res: map<Watcher, Run>)
    ensures res.Keys == s.Keys
    ensures forall w :: w in s ==> res[w] == if w in D then Expire(k, w, s[w], now) else s[w]
  {
    if D == {} then s else
    var w :| w in D;
    var res := Advance(k, s, D - {w}, now);
    if w in s then res[w := Expire(k, w, s[w], now)] else res
  }

  lemma AdvanceMore(k: Kind, s: map<Watcher, Run>, D: set<Watcher>, now: real, w: Watcher)
    requires w in s
    ensures Advance(k, s, D + {w}, now) == Advance(k, s, D, now)[w := Expire(k, w, s[w], now)]
  {
  }

  lemma OneShotsGrow(k: Kind, s: map<Watcher, Run>, D: set<Watcher>, w: Watcher)
    requires w in s
    ensures OneShots(k, s, D + {w}) == OneShots(k, s, D) + if OneShot(k, w, s[w]) then {w} else {}
  {
  }

  /** The account of a pass over the expired watchers of kind k: since they ran
      as in s and the queue was l with history log, exactly the watchers D have
      expired, in the order E, leaving runs, l1 and log1. */
  ghost predicate Account(k: Kind, now: real, s: map<Watcher, Run>, l: Layout, log: seq<Entry>, D: set<Watcher>,
                          E: seq<Watcher>, runs: map<Watcher, Run>, l1: Layout, log1: seq<Entry>) {
    runs == Advance(k, s, D, now) && Extracted(E, D, s, now) && Discarded(l, log, OneShots(k, s, D), l1, log1)
  }

  lemma AccountRuns(k: Kind, now: real, s: map<Watcher, Run>, l: Layout, log: seq<Entry>, D: set<Watcher>,
                    E: seq<Watcher>, runs: map<Watcher, Run>, l1: Layout, log1: seq<Entry>)
    requires Account(k, now, s, l, log, D, E, runs, l1, log1)
    ensures runs == Advance(k, s, D, now) && l1.slots.Keys == l.slots.Keys && |l1.lengths| == |l.lengths|
  {
  }

  lemma AccountNone(k: Kind, now: real, s: map<Watcher, Run>, l: Layout, log: seq<Entry>)
    ensures Account(k, now, s, l, log, {}, [], s, l, log)
  {
    DiscardNone(l, log);
    assert OneShots(k, s, {}) == {} && Advance(k, s, {}, now) == s;
  }

  lemma AccountMore(k: Kind, now: real, s: map<Watcher, Run>, l: Layout, log: seq<Entry>, D: set<Watcher>,
                    E: seq<Watcher>, runs: map<Watcher, Run>, l1: Layout, log1: seq<Entry>,
                    w: Watcher, l2: Layout, log2: seq<Entry>)
    requires Account(k, now, s, l, log, D, E, runs, l1, log1) && w in s && w !in D
    requires Extracted(E + [w], D + {w}, s, now)
    requires Discarded(l1, log1, if OneShot(k, w, s[w]) then {w} else {}, l2, log2)
    ensures Account(k, now, s, l, log, D + {w}, E + [w], runs[w := Expire(k, w, s[w], now)], l2, log2)
  {
    AdvanceMore(k, s, D, now, w);
    OneShotsGrow(k, s, D, w);
    DiscardMore(l, log, OneShots(k, s, D), l1, log1, if OneShot(k, w, s[w]) then {w} else {}, l2, log2);
  }

  // ---------- what is due to whom ----------

  function DueEvents(k: Kind): (m: Mask) {
    if k == Timer then {Timeout} else {Period}
  }

  /** Between two histories of a queue, events were only fed, or discarded with
      the watchers that were stopped. */
  ghost predicate OnlyReified(a: seq<Entry>, b: seq<Entry>) {
    a <= b && forall i :: |a| <= i < |b| ==> b[i].Fed? || b[i].how.Dropped?
  }

  lemma OnlyReifiedTrans(a: seq<Entry>, b: seq<Entry>, c: seq<Entry>)
    requires OnlyReified(a, b) && OnlyReified(b, c)
    ensures OnlyReified(a, c)
  {
    assert forall i :: |a| <= i < |b| ==> c[i] == b[i];
  }

  /** Each of the watchers X is owed its due event. */
  ghost predicate DueOwes(log: seq<Entry>, X: set<Watcher>) {
    forall w :: w in X ==> Owes(log, w, DueEvents(w.kind))
  }

  /** Each of the watchers X is owed its due event, and nothing else. */
  ghost predicate DueOwed(log: seq<Entry>, X: set<Watcher>) {
    forall w :: w in X ==> Owed(log, w) == Some(DueEvents(w.kind))
  }

  /** Each of the watchers X has been taken off the queue since entry n, the
      first time with its due event. */
  ghost predicate DueTaken(log: seq<Entry>, n: nat, X: set<Watcher>) {
    forall w :: w in X ==> exists i :: FirstTakes(log, n, i, w, DueEvents(w.kind))
  }

  /** What a pass over the expired watchers of kind k does to the history. */
  lemma PassOnlyReifies(k: Kind, now: real, s: map<Watcher, Run>, l: Layout, log: seq<Entry>, E: seq<Watcher>,
                        runs: map<Watcher, Run>, mid: Layout, midLog: seq<Entry>)
    requires Account(k, now, s, l, log, Expired(s, now), E, runs, mid, midLog)
    ensures OnlyReified(log, FedFrom(midLog, E, 0, DueEvents(k)))
  {
    hide Extracted, Advance, Expired, OneShots;
    FedFromOnlyFeeds(midLog, E, 0, DueEvents(k));
    OnlyReifiedTrans(log, midLog, FedFrom(midLog, E, 0, DueEvents(k)));
  }

  /** Of what is owed to a watcher, such a pass changes nothing unless it has expired. */
  lemma PassOwes(k: Kind, now: real, s: map<Watcher, Run>, l: Layout, log: seq<Entry>, E: seq<Watcher>,
                 runs: map<Watcher, Run>, mid: Layout, midLog: seq<Entry>, w: Watcher)
    requires Account(k, now, s, l, log, Expired(s, now), E, runs, mid, midLog)
    ensures var log' := FedFrom(midLog, E, 0, DueEvents(k));
      && (w !in Expired(s, now) ==> Owed(log', w) == Owed(log, w))
      && (w in Expired(s, now) ==> Owes(log', w, DueEvents(k)))
      && (w in Expired(s, now) && Owed(log, w) == None ==> Owed(log', w) == Some(DueEvents(k)))
  {
    assert E[0..] == E && (w in E <==> w in Expired(s, now));
    hide Extracted, Advance, Expired;
    OwedFed(midLog, E, 0, DueEvents(k), w);
    if w !in Expired(s, now) {
      OwedElsewhere(log, midLog, w);
    } else if Owed(log, w) == None {
      OwedTaken(log, midLog, w);
    }
  }

  /** Nothing is owed to the watchers X. */
  ghost predicate NoneOwed(log: seq<Entry>, X: set<Watcher>) {
    forall w :: w in X ==> Owed(log, w) == None
  }

  /** What the two passes do to the history, the timers first. */
  lemma BothPasses(mnNow: real, st: map<Watcher, Run>, l0: Layout, log0: seq<Entry>, T: seq<Watcher>, rt1: map<Watcher, Run>,
                   m1: Layout, log1: seq<Entry>, rtNow: real, sp: map<Watcher, Run>, l2: Layout, log2: seq<Entry>,
                   P: seq<Watcher>, rp1: map<Watcher, Run>, m2: Layout, log3: seq<Entry>)
    requires Account(Timer, mnNow, st, l0, log0, Expired(st, mnNow), T, rt1, m1, log1)
    requires log2 == FedFrom(log1, T, 0, {Timeout})
    requires Account(Periodic, rtNow, sp, l2, log2, Expired(sp, rtNow), P, rp1, m2, log3)
    requires (forall w :: w in st ==> w.kind == Timer) && (forall w :: w in sp ==> w.kind == Periodic)
    ensures var log4 := FedFrom(log3, P, 0, {Period});
      && OnlyReified(log0, log4) && DueOwes(log4, Expired(st, mnNow) + Expired(sp, rtNow))
      && (NoneOwed(log0, Expired(st, mnNow) + Expired(sp, rtNow)) ==> DueOwed(log4, Expired(st, mnNow) + Expired(sp, rtNow)))
  {
    hide Account, FedFrom, OnlyReified, Owed;
    var log4 := FedFrom(log3, P, 0, {Period});
    PassOnlyReifies(Timer, mnNow, st, l0, log0, T, rt1, m1, log1);
    PassOnlyReifies(Periodic, rtNow, sp, l2, log2, P, rp1, m2, log3);
    OnlyReifiedTrans(log0, log2, log4);
    var X := Expired(st, mnNow) + Expired(sp, rtNow);
    forall w | w in X
      ensures Owes(log4, w, DueEvents(w.kind)) && (NoneOwed(log0, X) ==> Owed(log4, w) == Some(DueEvents(w.kind))) {
      PassOwes(Timer, mnNow, st, l0, log0, T, rt1, m1, log1, w);
      PassOwes(Periodic, rtNow, sp, l2, log2, P, rp1, m2, log3, w);
    }
  }

  /** Watchers that are owed their due events and have been taken off the queue
      since have been taken off with these. */
  lemma OwedThenTaken(log: seq<Entry>, n: nat, X: set<Watcher>)
    requires Honest(log) && n <= |log| && DueOwes(log[..n], X) && forall w :: w in X ==> TakenSince(log, n, w)
    ensures DueTaken(log, n, X)
  {
    hide Honest, TakenSince, Owes, FirstTakes;
    forall w | w in X ensures exists i :: FirstTakes(log, n, i, w, DueEvents(w.kind)) {
      var i := OwedIsTaken(log, n, w, DueEvents(w.kind));
    }
  }

  // ---------- the order of callbacks ----------

  /** v is due before u: of higher priority, or of the same priority and either
      v is periodic and u is not, or they are of the same kind and v expired first. */
  ghost predicate Sooner(timers: map<Watcher, Run>, periodics: map<Watcher, Run>, v: Watcher, u: Watcher) {
    || v.pri > u.pri
    || (v.pri == u.pri && v in periodics && u in timers)
    || (v.pri == u.pri && v in timers && u in timers && timers[v].at < timers[u].at)
    || (v.pri == u.pri && v in periodics && u in periodics && periodics[v].at < periodics[u].at)
  }

  /** The layouts of the queue while the expired watchers T and then P are fed. */
  ghost predicate FedInTurn(l0: Layout, m1: Layout, T: seq<Watcher>, m2: Layout, P: seq<Watcher>, l2: Layout)
  {
    && l0.Fits() && Distinct(T) && Distinct(P)
    && m1.lengths == l0.lengths && m1.slots.Keys == l0.slots.Keys
    && (forall w :: w in l0.slots ==> m1.slots[w] == l0.slots[w] || m1.slots[w] == 0)
    && (forall i :: 0 <= i < |T| ==> T[i] in m1.slots && T[i].pri < |m1.lengths| && l0.slots[T[i]] == 0)
    && var l1 := m1.FeedFrom(T, 0);
       && m2.lengths == l1.lengths && m2.slots.Keys == l1.slots.Keys
       && (forall w :: w in l1.slots ==> m2.slots[w] == l1.slots[w] || (m2.slots[w] == 0 && w.kind != Timer))
       && (forall i :: 0 <= i < |T| ==> T[i].kind == Timer)
       && (forall i :: 0 <= i < |P| ==> P[i] in m2.slots && P[i].pri < |m2.lengths| && m2.slots[P[i]] == 0)
       && l2 == m2.FeedFrom(P, 0)
  }

  lemma KeptAhead(l: Layout, m: Layout, v: Watcher, u: Watcher)
    requires l.KeptIn(m) && Ahead(l, v, u)
    ensures Ahead(m, v, u)
  {
  }

  lemma FeedingAhead(m: Layout, s: seq<Watcher>, i: nat, j: nat)
    requires m.Fits() && Distinct(s) && (forall i :: 0 <= i < |s| ==> s[i] in m.slots && m.slots[s[i]] == 0)
    requires i < j < |s| && s[i].pri == s[j].pri
    ensures Ahead(m.FeedFrom(s, 0), s[i], s[j])
  {
    FeedingReverses(m, s, 0);
  }

  lemma FedAhead(l0: Layout, m1: Layout, T: seq<Watcher>, m2: Layout, P: seq<Watcher>, l2: Layout)
    requires FedInTurn(l0, m1, T, m2, P, l2)
    ensures l2.Fits() && l2.slots.Keys == l0.slots.Keys
    ensures forall i, j :: 0 <= i < j < |T| && T[i].pri == T[j].pri ==> Ahead(l2, T[i], T[j])
    ensures forall i, j :: 0 <= i < j < |P| && P[i].pri == P[j].pri ==> Ahead(l2, P[i], P[j])
    ensures forall i, j :: 0 <= i < |P| && 0 <= j < |T| && P[i].pri == T[j].pri ==> Ahead(l2, P[i], T[j])
    ensures forall w :: w in T || w in P ==> w in l2.slots && l2.slots[w] != 0
  {
    var l1 := m1.FeedFrom(T, 0);
    TimersAreFed(l0, m1, T, m2, P, l2);
    FeedingReverses(m2, P, 0);
    forall i, j | 0 <= i < j < |T| && T[i].pri == T[j].pri ensures Ahead(l2, T[i], T[j]) {
      KeptAhead(m2, l2, T[i], T[j]);
    }
    forall i, j | 0 <= i < j < |P| && P[i].pri == P[j].pri ensures Ahead(l2, P[i], P[j]) {
      FeedingAhead(m2, P, i, j);
    }
  }

  lemma TimersAreFed(l0: Layout, m1: Layout, T: seq<Watcher>, m2: Layout, P: seq<Watcher>, l2: Layout)
    requires FedInTurn(l0, m1, T, m2, P, l2)
    ensures m2.Fits() && forall j :: 0 <= j < |T| ==> m2.slots[T[j]] != 0
    ensures forall i, j :: 0 <= i < j < |T| && T[i].pri == T[j].pri ==> Ahead(m2, T[i], T[j])
  {
    var l1 := m1.FeedFrom(T, 0);
    FeedingReverses(m1, T, 0);
    forall i, j | 0 <= i < j < |T| && T[i].pri == T[j].pri ensures Ahead(m2, T[i], T[j]) {
      FeedingAhead(m1, T, i, j);
    }
  }

  /** Where a watcher is in the order of expiry. */
  lemma IndexIn(E: seq<Watcher>, s: map<Watcher, Run>, now: real, v: Watcher) returns (i: nat)
    requires Extracted(E, Expired(s, now), s, now) && v in Expired(s, now)
    ensures i < |E| && E[i] == v
  {
    i :| i < |E| && E[i] == v;
  }

  lemma EarlierFirst(E: seq<Watcher>, s: map<Watcher, Run>, now: real, i: nat, j: nat)
    requires Extracted(E, Expired(s, now), s, now) && i < |E| && j < |E|
    ensures E[i] in s && E[j] in s && (s[E[i]].at < s[E[j]].at ==> i < j)
  {
  }

  lemma SoonerAhead(st: map<Watcher, Run>, mnNow: real, T: seq<Watcher>, sp: map<Watcher, Run>, rtNow: real, P: seq<Watcher>,
                    l0: Layout, m1: Layout, m2: Layout, l2: Layout, v: Watcher, u: Watcher)
    requires FedInTurn(l0, m1, T, m2, P, l2) && st.Keys !! sp.Keys
    requires Extracted(T, Expired(st, mnNow), st, mnNow) && Extracted(P, Expired(sp, rtNow), sp, rtNow)
    requires v in Expired(st, mnNow) + Expired(sp, rtNow) && u in Expired(st, mnNow) + Expired(sp, rtNow)
    requires Sooner(st, sp, v, u)
    ensures Ahead(l2, v, u)
  {
    FedAhead(l0, m1, T, m2, P, l2);
    hide FedInTurn, Layout.Fits, Extracted;
    var i, j;
    if v in st {
      i := IndexIn(T, st, mnNow, v);
    } else {
      i := IndexIn(P, sp, rtNow, v);
    }
    if u in st {
      j := IndexIn(T, st, mnNow, u);
    } else {
      j := IndexIn(P, sp, rtNow, u);
    }
    if v in st && u in st {
      EarlierFirst(T, st, mnNow, i, j);
    } else if v !in st && u !in st {
      EarlierFirst(P, sp, rtNow, i, j);
    }
  }

  /** None of the watchers X is pending. */
  ghost predicate NoneWaiting(l: Layout, X: set<Watcher>) {
    forall w :: w in X ==> w in l.slots && l.slots[w] == 0
  }

  /** The watchers X are pending, and those due sooner are ahead. */
  ghost predicate Lined(l: Layout, X: set<Watcher>, st: map<Watcher, Run>, sp: map<Watcher, Run>) {
    && (forall w :: w in X ==> w in l.slots && l.slots[w] != 0)
    && forall v, u :: v in X && u in X && Sooner(st, sp, v, u) ==> Ahead(l, v, u)
  }

  lemma DueFed(st: map<Watcher, Run>, mnNow: real, T: seq<Watcher>, sp: map<Watcher, Run>, rtNow: real, P: seq<Watcher>,
               l0: Layout, m1: Layout, m2: Layout, l2: Layout, w: Watcher)
    requires FedInTurn(l0, m1, T, m2, P, l2)
    requires Extracted(T, Expired(st, mnNow), st, mnNow) && Extracted(P, Expired(sp, rtNow), sp, rtNow)
    requires w in Expired(st, mnNow) + Expired(sp, rtNow)
    ensures w in l2.slots && l2.slots[w] != 0
  {
    FedAhead(l0, m1, T, m2, P, l2);
    assert w in T || w in P;
  }

  /** Fed in turn, the expired watchers are lined up. */
  lemma DueLined(st: map<Watcher, Run>, mnNow: real, T: seq<Watcher>, sp: map<Watcher, Run>, rtNow: real, P: seq<Watcher>,
                 l0: Layout, m1: Layout, m2: Layout, l2: Layout)
    requires FedInTurn(l0, m1, T, m2, P, l2) && st.Keys !! sp.Keys
    requires Extracted(T, Expired(st, mnNow), st, mnNow) && Extracted(P, Expired(sp, rtNow), sp, rtNow)
    ensures Lined(l2, Expired(st, mnNow) + Expired(sp, rtNow), st, sp)
  {
    hide FedInTurn, Layout.Fits, Ahead, Sooner, Extracted, Expired;
    var X := Expired(st, mnNow) + Expired(sp, rtNow);
    forall w | w in X ensures w in l2.slots && l2.slots[w] != 0 {
      DueFed(st, mnNow, T, sp, rtNow, P, l0, m1, m2, l2, w);
    }
    forall v, u | v in X && u in X && Sooner(st, sp, v, u) ensures Ahead(l2, v, u) {
      SoonerAhead(st, mnNow, T, sp, rtNow, P, l0, m1, m2, l2, v, u);
    }
  }

  /** Since entry n of the history, every watcher of X has been taken off the
      queue, and none was called back before those due sooner were taken off. */
  ghost predicate CalledInOrder(X: set<Watcher>, st: map<Watcher, Run>, sp: map<Watcher, Run>, n: nat, log: seq<Entry>) {
    && (forall w :: w in X ==> TakenSince(log, n, w))
    && forall i: nat, v :: v in X && FirstDelivery(n, log, i) && log[i].w in X && Sooner(st, sp, v, log[i].w) ==>
         TakenSince(log[..i], n, v)
  }

  lemma LinedThenCalled(l: Layout, X: set<Watcher>, st: map<Watcher, Run>, sp: map<Watcher, Run>, n: nat, log: seq<Entry>)
    requires Lined(l, X, st, sp) && InOrder(l, n, log)
    requires forall w :: w in l.slots && l.slots[w] != 0 ==> TakenSince(log, n, w)
    ensures CalledInOrder(X, st, sp, n, log)
  {
  }

  // ---------- what a callback may do ----------

  datatype Op =
    | FeedOp(w: Watcher, events: Mask)
    | ClearOp(w: Watcher)
    | TimerStartOp(w: Watcher)
    | TimerStopOp(w: Watcher)
    | TimerAgainOp(w: Watcher)
    | PeriodicStartOp(w: Watcher)
    | PeriodicStopOp(w: Watcher)
    | PeriodicAgainOp(w: Watcher)

  predicate OpOk(op: Op, ws: set<Watcher>) {
    && op.w in ws
    && (op.TimerStartOp? || op.TimerStopOp? || op.TimerAgainOp? ==> op.w.kind == Timer)
    && (op.PeriodicStartOp? || op.PeriodicStopOp? || op.PeriodicAgainOp? ==> op.w.kind == Periodic)
  }

  /** What callbacks can change: the time fields of the watchers, and the queue
      by way of its history. */
  datatype World = World(runs: map<Watcher, Run>, log: seq<Entry>) {
    ghost function Ran(w: Watcher, r: Run): (s: World) {
      this.(runs := runs[w := r])
    }

    ghost function Logged(e: Entry): (s: World) {
      this.(log := log + [e])
    }

    /** What is owed to w leaves the queue, if anything is. */
    ghost function Took(w: Watcher, how: How): (s: World) {
      match Owed(log, w)
      case None => this
      case Some(e) => Logged(Taken(w, e, how))
    }
  }

  /** What an operation does to a watcher of the loop. */
  ghost function Effect(op: Op, s: World, mnNow: real, rtNow: real): (t: World)
    ensures t.runs.Keys == s.runs.Keys && s.log <= t.log
  {
    if op.w !in s.runs then s else
    var w, r := op.w, s.runs[op.w];
    match op
    case FeedOp(_, events) => s.Logged(Fed(w, events))
    case ClearOp(_) => s.Took(w, Cleared)
    case TimerStartOp(_) => s.Ran(w, r.StartTimer(mnNow))
    case TimerStopOp(_) => s.Took(w, Dropped).Ran(w, r.StopTimer(mnNow))
    case TimerAgainOp(_) =>
      (if r.on && r.repeat == 0.0 then s.Took(w, Dropped) else s).Ran(w, r.AgainTimer(mnNow))
    case PeriodicStartOp(_) => s.Ran(w, StartPeriodic(w, r, rtNow))
    case PeriodicStopOp(_) => s.Took(w, Dropped).Ran(w, r.(on := false))
    case PeriodicAgainOp(_) => s.Took(w, Dropped).Ran(w, StartPeriodic(w, r.(on := false), rtNow))
  }

  lemma ClearEffect(w: Watcher, s: World, mnNow: real, rtNow: real)
    requires w in s.runs
    ensures Effect(ClearOp(w), s, mnNow, rtNow) == s.Took(w, Cleared)
  {
  }

  lemma StopEffects(w: Watcher, s: World, mnNow: real, rtNow: real)
    requires w in s.runs
    ensures Effect(TimerStopOp(w), s, mnNow, rtNow) == s.Took(w, Dropped).Ran(w, s.runs[w].StopTimer(mnNow))
    ensures Effect(PeriodicStopOp(w), s, mnNow, rtNow) == s.Took(w, Dropped).Ran(w, s.runs[w].(on := false))
  {
  }

  lemma AgainEffects(w: Watcher, s: World, mnNow: real, rtNow: real)
    requires w in s.runs
    ensures Effect(TimerAgainOp(w), s, mnNow, rtNow) ==
      (if s.runs[w].on && s.runs[w].repeat == 0.0 then s.Took(w, Dropped) else s).Ran(w, s.runs[w].AgainTimer(mnNow))
    ensures Effect(PeriodicAgainOp(w), s, mnNow, rtNow) ==
      s.Took(w, Dropped).Ran(w, StartPeriodic(w, s.runs[w].(on := false), rtNow))
  {
  }

  lemma TookIs(s: World, w: Watcher, how: How)
    ensures Owed(s.Took(w, how).log, w) == None && s.Took(w, how).runs == s.runs
    ensures forall x {:trigger Owed(s.log, x)} :: x != w ==> Owed(s.Took(w, how).log, x) == Owed(s.log, x)
  {
    if Owed(s.log, w).Some? {
      var e := Taken(w, Owed(s.log, w).value, how);
      OwedAppend(s.log, e, w);
      forall x {:trigger Owed(s.log, x)} | x != w ensures Owed(s.log + [e], x) == Owed(s.log, x) {
        OwedAppend(s.log, e, x);
      }
    }
  }

  /** Feeding logs the events. */
  lemma FeedMeans(w: Watcher, events: Mask, s: World, mnNow: real, rtNow: real)
    requires w in s.runs
    ensures Effect(FeedOp(w, events), s, mnNow, rtNow) == World(s.runs, s.log + [Fed(w, events)])
  {
  }

  /** After clearing and stopping nothing is owed any more. */
  lemma StopMeans(op: Op, s: World, mnNow: real, rtNow: real)
    requires op.w in s.runs && (op.ClearOp? || op.TimerStopOp? || op.PeriodicStopOp? || op.PeriodicAgainOp?)
    ensures Owed(Effect(op, s, mnNow, rtNow).log, op.w) == None
    ensures op.TimerStopOp? || op.PeriodicStopOp? ==> !Effect(op, s, mnNow, rtNow).runs[op.w].on
  {
    TookIs(s, op.w, if op.ClearOp? then Cleared else Dropped);
  }

  /** A watcher that is started runs: a timer as long as it has left, a periodic
      watcher to when it is due. */
  lemma StartMeans(op: Op, s: World, mnNow: real, rtNow: real)
    requires op.w in s.runs && (op.TimerStartOp? || op.PeriodicStartOp? || op.PeriodicAgainOp?)
    requires s.runs[op.w].interval >= 0.0
    ensures var r, q := s.runs[op.w], Effect(op, s, mnNow, rtNow).runs[op.w];
      && q.on
      && (op.TimerStartOp? && !r.on ==> q.at - mnNow == r.at)
      && ((op.PeriodicStartOp? && !r.on) || op.PeriodicAgainOp? ==>
            (LongEnough(op.w, r.interval) ==> DueAt(op.w, r.offset, r.interval, rtNow, q.at)))
  {
    hide LongEnough, DueAt, NextExpiry;
    TookIs(s, op.w, Dropped);
    if LongEnough(op.w, s.runs[op.w].interval) {
      NextIsDue(op.w, s.runs[op.w], rtNow);
      NextIsDue(op.w, s.runs[op.w].(on := false), rtNow);
    }
  }

  lemma AgainMeans(w: Watcher, s: World, mnNow: real, rtNow: real)
    requires w in s.runs
    ensures var r, t := s.runs[w], Effect(TimerAgainOp(w), s, mnNow, rtNow);
      if r.repeat != 0.0 then t.runs[w].on && t.runs[w].at - mnNow == r.repeat && t.log == s.log
      else !t.runs[w].on && (r.on ==> Owed(t.log, w) == None)
  {
    TookIs(s, w, Dropped);
  }

  /** Other watchers are none of its business. */
  lemma OthersUntouched(op: Op, s: World, mnNow: real, rtNow: real, x: Watcher)
    requires op.w in s.runs && x in s.runs && x != op.w
    ensures var t := Effect(op, s, mnNow, rtNow); t.runs[x] == s.runs[x] && Owed(t.log, x) == Owed(s.log, x)
  {
    TookIs(s, op.w, Cleared);
    TookIs(s, op.w, Dropped);
    if op.FeedOp? {
      OwedAppend(s.log, Fed(op.w, op.events), x);
    }
  }

  /** What a whole callback does. */
  ghost function Effects(ops: seq<Op>, s: World, mnNow: real, rtNow: real): (t: World)
    ensures t.runs.Keys == s.runs.Keys && s.log <= t.log
  {
    if ops == [] then s
    else Effect(ops[|ops| - 1], Effects(ops[..|ops| - 1], s, mnNow, rtNow), mnNow, rtNow)
  }

  lemma NoEffects(s: World, mnNow: real, rtNow: real)
    ensures Effects([], s, mnNow, rtNow) == s
  {
  }

  lemma EffectsMore(ops: seq<Op>, n: nat, s: World, mnNow: real, rtNow: real)
    requires n < |ops|
    ensures Effects(ops[..n + 1], s, mnNow, rtNow) == Effect(ops[n], Effects(ops[..n], s, mnNow, rtNow), mnNow, rtNow)
  {
    assert ops[..n + 1][..n] == ops[..n];
  }

  /** One operation after another. */
  lemma {:induction false} EffectsBoth(a: seq<Op>, b: seq<Op>, s: World, mnNow: real, rtNow: real)
    ensures Effects(a + b, s, mnNow, rtNow) == Effects(b, Effects(a, s, mnNow, rtNow), mnNow, rtNow)
    decreases |b|
  {
    hide Effect;
    if b == [] {
      assert a + b == a;
    } else {
      var n := |b| - 1;
      assert (a + b)[..|a| + n] == a + b[..n] && (a + b)[|a| + n] == b[n];
      EffectsBoth(a, b[..n], s, mnNow, rtNow);
    }
  }

  lemma OneEffect(op: Op, s: World, mnNow: real, rtNow: real)
    ensures Effects([op], s, mnNow, rtNow) == Effect(op, s, mnNow, rtNow)
  {
    assert [op][..0] == [];
  }

  /** A callback: whose, and for which events. */
  datatype Call = Call(w: Watcher, events: Mask)

  function From(script: seq<seq<Op>>, n: nat): (rest: seq<seq<Op>>) {
    if n < |script| then script[n..] else []
  }

  function Later(script: seq<seq<Op>>): (rest: seq<seq<Op>>) {
    From(script, 1)
  }

  function Nth(script: seq<seq<Op>>, n: nat): (ops: seq<Op>) {
    if n < |script| then script[n] else []
  }

  /** After some callbacks: each takes the events of its watcher off the queue
      and then does, operation by operation, what is next in the script. */
  ghost function Played(calls: seq<Call>, script: seq<seq<Op>>, s: World, mnNow: real, rtNow: real): (t: World)
    ensures t.runs.Keys == s.runs.Keys && s.log <= t.log
  {
    if calls == [] then s
    else
      var n := |calls| - 1;
      var before := Played(calls[..n], script, s, mnNow, rtNow);
      Effects(Nth(script, n), before.Logged(Taken(calls[n].w, calls[n].events, Invoked)), mnNow, rtNow)
  }

  lemma NonePlayed(script: seq<seq<Op>>, s: World, mnNow: real, rtNow: real)
    ensures Played([], script, s, mnNow, rtNow) == s
  {
  }

  lemma PlayedMore(calls: seq<Call>, c: Call, script: seq<seq<Op>>, s: World, mnNow: real, rtNow: real)
    ensures var before := Played(calls, script, s, mnNow, rtNow);
      Played(calls + [c], script, s, mnNow, rtNow) ==
      Effects(Nth(script, |calls|), before.Logged(Taken(c.w, c.events, Invoked)), mnNow, rtNow)
  {
    assert (calls + [c])[..|calls|] == calls;
  }

  /** Callback number i does what entry number i of the script says, after it
      has been called and before the next one is. */
  lemma NthCall(calls: seq<Call>, i: nat, script: seq<seq<Op>>, s: World, mnNow: real, rtNow: real)
    requires i < |calls|
    ensures var a, b := Played(calls[..i], script, s, mnNow, rtNow), Played(calls[..i + 1], script, s, mnNow, rtNow);
      var c := a.Logged(Taken(calls[i].w, calls[i].events, Invoked));
      && c.log <= b.log
      && b == if i < |script| then Effects(script[i], c, mnNow, rtNow) else c
  {
    assert calls[..i + 1] == calls[..i] + [calls[i]];
    PlayedMore(calls[..i], calls[i], script, s, mnNow, rtNow);
  }

  /** So what it feeds stands between the two in the history. */
  lemma FedByCallback(calls: seq<Call>, i: nat, script: seq<seq<Op>>, j: nat, s: World, mnNow: real, rtNow: real) returns (k: nat)
    requires i < |calls| && i < |script| && j < |script[i]| && script[i][j].FeedOp? && script[i][j].w in s.runs
    ensures var a, b := Played(calls[..i], script, s, mnNow, rtNow), Played(calls[..i + 1], script, s, mnNow, rtNow);
      |a.log| < k < |b.log| && b.log[k] == Fed(script[i][j].w, script[i][j].events)
  {
    hide Played, Effects, Effect;
    NthCall(calls, i, script, s, mnNow, rtNow);
    var a := Played(calls[..i], script, s, mnNow, rtNow);
    var c := a.Logged(Taken(calls[i].w, calls[i].events, Invoked));
    var ops, op := script[i], script[i][j];
    var d := Effects(ops[..j], c, mnNow, rtNow);
    FeedMeans(op.w, op.events, d, mnNow, rtNow);
    EffectsMore(ops, j, c, mnNow, rtNow);
    assert ops[..j + 1] + ops[j + 1..] == ops;
    EffectsBoth(ops[..j + 1], ops[j + 1..], c, mnNow, rtNow);
    k := |d.log|;
  }

  /** The callbacks in a history. */
  ghost function CallsIn(log: seq<Entry>): (cs: seq<Call>) {
    if log == [] then [] else
    var e := log[|log| - 1];
    CallsIn(log[..|log| - 1]) + if e.Taken? && e.how.Invoked? then [Call(e.w, e.events)] else []
  }

  lemma CallsInMore(log: seq<Entry>, e: Entry)
    ensures CallsIn(log + [e]) == CallsIn(log) + if e.Taken? && e.how.Invoked? then [Call(e.w, e.events)] else []
  {
    assert (log + [e])[..|log|] == log;
  }

  lemma EffectCalls(op: Op, s: World, mnNow: real, rtNow: real)
    ensures CallsIn(Effect(op, s, mnNow, rtNow).log) == CallsIn(s.log)
  {
    var t := Effect(op, s, mnNow, rtNow);
    if t.log != s.log {
      CallsInMore(s.log, t.log[|s.log|]);
    }
  }

  lemma {:induction false} EffectsCalls(ops: seq<Op>, s: World, mnNow: real, rtNow: real)
    ensures CallsIn(Effects(ops, s, mnNow, rtNow).log) == CallsIn(s.log)
  {
    hide Effect;
    if ops != [] {
      var n := |ops| - 1;
      EffectsCalls(ops[..n], s, mnNow, rtNow);
      EffectCalls(ops[n], Effects(ops[..n], s, mnNow, rtNow), mnNow, rtNow);
    }
  }

  /** These are all the callbacks there are. */
  lemma {:induction false} PlayedCalls(calls: seq<Call>, script: seq<seq<Op>>, s: World, mnNow: real, rtNow: real)
    ensures CallsIn(Played(calls, script, s, mnNow, rtNow).log) == CallsIn(s.log) + calls
  {
    hide Effects, CallsIn;
    if calls == [] {
      assert CallsIn(s.log) + [] == CallsIn(s.log);
    } else {
      var n := |calls| - 1;
      var c := calls[n];
      var before := Played(calls[..n], script, s, mnNow, rtNow);
      PlayedCalls(calls[..n], script, s, mnNow, rtNow);
      CallsInMore(before.log, Taken(c.w, c.events, Invoked));
      EffectsCalls(Nth(script, n), before.Logged(Taken(c.w, c.events, Invoked)), mnNow, rtNow);
      assert calls == calls[..n] + [c];
    }
  }

  const MAX_BLOCKTIME: real := 59.743

  function Max(x: real, y: real): (res: real) {
    if x < y then y else x
  }

  class Loop {
    const queue: Queue
    const timers: Heap
    const periodics: Heap
    var mnNow: real
    var rtNow: real

    /** The started watchers of a kind. */
    ghost function Started(k: Kind): (res: set<Watcher>)
      reads queue.ws`active
    {
      set w | w in queue.ws && w.kind == k && w.active != 0
    }

    ghost function RunOf(w: Watcher): (res: Run)
      reads w`active, w`at, w`repeat, w`offset, w`interval
    {
      Run(w.active != 0, w.at, w.repeat, w.offset, w.interval)
    }

    ghost function RunsOf(ws: set<Watcher>): (res: map<Watcher, Run>)
      reads ws`active, ws`at, ws`repeat, ws`offset, ws`interval
      ensures res.Keys == ws && forall w :: w in ws ==> res[w] == RunOf(w)
    {
      if ws == {} then map[] else
      var w :| w in ws;
      RunsOf(ws - {w})[w := RunOf(w)]
    }

    /** The time fields of all the watchers of a kind. */
    ghost function Runs(k: Kind): (res: map<Watcher, Run>)
      reads queue.ws`active, queue.ws`at, queue.ws`repeat, queue.ws`offset, queue.ws`interval
      ensures res.Keys == set w | w in queue.ws && w.kind == k
      ensures forall w :: w in res ==> res[w] == RunOf(w)
    {
      RunsOf(set w | w in queue.ws && w.kind == k)
    }

    /** What the assertions of the C code demand of the program. */
    ghost predicate Tame()
      reads queue.ws`repeat, queue.ws`interval
    {
      forall w :: w in queue.ws ==>
        w.repeat >= 0.0 && w.interval >= 0.0 && (w.rescheduler ==> forall t: real :: w.reschedule(t) >= t)
    }

    /** Each heap is in order and holds exactly the started watchers of its kind. */
    ghost predicate HeapsOk()
      reads timers, periodics, queue.ws`active, timers.Ws()`active, timers.Ws()`at, periodics.Ws()`active, periodics.Ws()`at
    {
      && timers != periodics && timers.Valid() && periodics.Valid()
      && timers.Ws() == Started(Timer) && periodics.Ws() == Started(Periodic)
    }

    ghost predicate Valid()
      reads timers, periodics, timers.Ws()`active, timers.Ws()`at, periodics.Ws()`active, periodics.Ws()`at
      reads queue`pendings, queue`log
      reads queue.ws`active, queue.ws`pending, queue.ws`repeat, queue.ws`interval
    {
      queue.Valid() && HeapsOk() && Tame()
    }

    constructor (q: Queue, now: real, clock: real)
      requires q.Valid() && forall w :: w in q.ws ==> w.active == 0 && w.repeat >= 0.0 && w.interval >= 0.0
      requires forall w :: w in q.ws && w.rescheduler ==> forall t: real :: w.reschedule(t) >= t
      ensures Valid() && queue == q && mnNow == now && rtNow == clock
      ensures fresh(timers) && fresh(periodics) && Started(Timer) == Started(Periodic) == {}
    {
      queue, mnNow, rtNow := q, now, clock;
      timers := new Heap();
      periodics := new Heap();
    }

    // ---------- entering, leaving and moving within a heap ----------

    /** The time fields of w are now r, and those of the other watchers as before. */
    twostate predicate Became(w: Watcher, r: Run)
      reads queue.ws, w
    {
      RunOf(w) == r && forall x :: x in queue.ws && x != w ==> RunOf(x) == old(RunOf(x))
    }

    method TimerEnter(w: Watcher)
      requires HeapsOk() && w in queue.ws && w.kind == Timer && w.active == 0
      modifies timers, Started(Timer)`active, w`active, w`at
      ensures HeapsOk() && Became(w, old(RunOf(w)).StartTimer(mnNow))
    {
      w.at := w.at + mnNow;
      timers.Insert(w);
      timers.ValidActive();
    }

    method TimerLeave(w: Watcher)
      requires HeapsOk() && w in queue.ws && w.kind == Timer && w.active != 0
      modifies timers, Started(Timer)`active, w`at
      ensures HeapsOk() && Became(w, old(RunOf(w)).StopTimer(mnNow))
    {
      timers.Remove(w);
      timers.ValidActive();
      w.at := w.at - mnNow;
      w.active := 0;
    }

    method TimerMove(w: Watcher, at: real)
      requires HeapsOk() && w in queue.ws && w.kind == Timer && w.active != 0
      modifies timers, Started(Timer)`active, w`at
      ensures HeapsOk() && Became(w, old(RunOf(w)).(at := at))
    {
      w.at := at;
      timers.Refresh(w);
      timers.ValidActive();
    }

    method PeriodicEnter(w: Watcher, at: real)
      requires HeapsOk() && w in queue.ws && w.kind == Periodic && w.active == 0
      modifies periodics, Started(Periodic)`active, w`active, w`at
      ensures HeapsOk() && Became(w, old(RunOf(w)).(on := true, at := at))
    {
      w.at := at;
      periodics.Insert(w);
      periodics.ValidActive();
    }

    method PeriodicLeave(w: Watcher)
      requires HeapsOk() && w in queue.ws && w.kind == Periodic && w.active != 0
      modifies periodics, Started(Periodic)`active
      ensures HeapsOk() && Became(w, old(RunOf(w)).(on := false))
    {
      periodics.Remove(w);
      periodics.ValidActive();
      w.active := 0;
    }

    /** The step of timers_reify for a repeating timer: downheap at the root. */
    method TimerSink(at: real)
      requires HeapsOk() && timers.h != []
      modifies timers, Started(Timer)`active, timers.h[0].w`at
      ensures HeapsOk() && Became(old(timers.h[0].w), old(RunOf(timers.h[0].w)).(at := at))
    {
      assert timers.h[0].w in timers.Ws();
      timers.h[0].w.at := at;
      timers.RefreshRoot();
      timers.ValidActive();
    }

    method PeriodicSink(at: real)
      requires HeapsOk() && periodics.h != []
      modifies periodics, Started(Periodic)`active, periodics.h[0].w`at
      ensures HeapsOk() && Became(old(periodics.h[0].w), old(RunOf(periodics.h[0].w)).(at := at))
    {
      assert periodics.h[0].w in periodics.Ws();
      periodics.h[0].w.at := at;
      periodics.RefreshRoot();
      periodics.ValidActive();
    }

    // ---------- the interface of the program ----------

    /** Nothing was done to the queue but discarding the events of w. */
    twostate predicate OnlyDiscarded(w: Watcher)
      reads queue, queue.ws, w
    {
      && w.pending == 0 && RowLengths(queue.pendings) == RowLengths(old(queue.pendings))
      && (old(w.pending) == 0 ==> queue.log == old(queue.log))
      && (old(w.pending) != 0 ==> exists e :: queue.log == old(queue.log) + [Taken(w, e, How.Dropped)])
    }

    /** ev_timer_start */
    method TimerStart(w: Watcher)
      requires Valid() && w in queue.ws && w.kind == Timer
      modifies timers, Started(Timer)`active, w`active, w`at
      ensures Valid() && Became(w, old(RunOf(w)).StartTimer(mnNow))
      ensures w.active != 0 && (old(w.active) == 0 ==> w.at == old(w.at) + mnNow)
    {
      if w.active != 0 {
        return;
      }
      TimerEnter(w);
    }

    /** ev_timer_stop */
    method TimerStop(w: Watcher)
      requires Valid() && w in queue.ws && w.kind == Timer
      modifies timers, Started(Timer)`active, w`at, w`pending, queue`pendings, queue`log
      ensures Valid() && Became(w, old(RunOf(w)).StopTimer(mnNow)) && OnlyDiscarded(w)
      ensures w.active == 0 && (old(w.active) != 0 ==> w.at == old(w.at) - mnNow)
    {
      hide Heap.Valid, RowLengths, Loop.Tame, Honest, Owed;
      queue.Drop(w);
      if w.active != 0 {
        TimerLeave(w);
      }
    }

    /** ev_timer_again */
    method TimerAgain(w: Watcher)
      requires Valid() && w in queue.ws && w.kind == Timer
      modifies timers, Started(Timer)`active, w`active, w`at, w`pending, queue`pendings, queue`log
      ensures Valid() && Became(w, old(RunOf(w)).AgainTimer(mnNow))
      ensures w.repeat == 0.0 && old(w.active) != 0 ==> OnlyDiscarded(w)
      ensures w.repeat != 0.0 || old(w.active) == 0 ==>
        w.pending == old(w.pending) && queue.log == old(queue.log) && queue.pendings == old(queue.pendings)
      ensures if w.repeat != 0.0 then w.active != 0 && w.at == mnNow + w.repeat else w.active == 0
    {
      if w.active != 0 {
        if w.repeat != 0.0 {
          TimerMove(w, mnNow + w.repeat);
        } else {
          TimerStop(w);
        }
      } else if w.repeat != 0.0 {
        w.at := w.repeat;
        TimerStart(w);
      }
    }

    method NextOf(w: Watcher) returns (at: real)
      requires w.interval >= 0.0 && Scheduled(w, RunOf(w))
      ensures at == NextExpiry(w, RunOf(w), rtNow)
    {
      if w.rescheduler {
        at := w.reschedule(rtNow);
      } else {
        at := Recalc(w.offset, w.interval, rtNow);
      }
    }

    /** ev_periodic_start */
    method PeriodicStart(w: Watcher)
      requires Valid() && w in queue.ws && w.kind == Periodic
      modifies periodics, Started(Periodic)`active, w`active, w`at
      ensures Valid() && Became(w, StartPeriodic(w, old(RunOf(w)), rtNow))
      ensures w.active != 0 && (old(w.active) == 0 && LongEnough(w, w.interval) ==> DueAt(w, w.offset, w.interval, rtNow, w.at))
    {
      hide LongEnough, DueAt;
      if w.active != 0 {
        return;
      }
      var at := FirstExpiry(w);
      PeriodicEnter(w, at);
    }

    /** When a periodic watcher is due that is about to start. */
    method FirstExpiry(w: Watcher) returns (at: real)
      requires w.interval >= 0.0
      ensures at == NextExpiry(w, RunOf(w), rtNow)
      ensures LongEnough(w, w.interval) ==> DueAt(w, w.offset, w.interval, rtNow, at)
    {
      at := w.offset;
      if w.rescheduler || w.interval != 0.0 {
        at := NextOf(w);
      }
      hide LongEnough, DueAt, NextExpiry;
      if LongEnough(w, w.interval) {
        NextIsDue(w, RunOf(w), rtNow);
      }
    }

    /** ev_periodic_stop */
    method PeriodicStop(w: Watcher)
      requires Valid() && w in queue.ws && w.kind == Periodic
      modifies periodics, Started(Periodic)`active, w`pending, queue`pendings, queue`log
      ensures Valid() && Became(w, old(RunOf(w)).(on := false)) && OnlyDiscarded(w)
      ensures w.active == 0
    {
      hide Heap.Valid, RowLengths, Loop.Tame, Honest, Owed;
      queue.Drop(w);
      if w.active != 0 {
        PeriodicLeave(w);
      }
    }

    /** ev_periodic_again */
    method PeriodicAgain(w: Watcher)
      requires Valid() && w in queue.ws && w.kind == Periodic
      modifies periodics, Started(Periodic)`active, w`active, w`at, w`pending, queue`pendings, queue`log
      ensures Valid() && Became(w, StartPeriodic(w, old(RunOf(w)).(on := false), rtNow)) && OnlyDiscarded(w)
      ensures w.active != 0 && (LongEnough(w, w.interval) ==> DueAt(w, w.offset, w.interval, rtNow, w.at))
    {
      hide LongEnough, DueAt;
      PeriodicStop(w);
      PeriodicStart(w);
    }

    // ---------- making expired watchers pending ----------

    ghost predicate Processed(k: Kind, s: map<Watcher, Run>, D: set<Watcher>, now: real)
      reads queue.ws
    {
      && (forall w :: w in queue.ws && w.kind == k ==> w in s)
      && forall w :: w in s ==>
           w in queue.ws && w.kind == k && RunOf(w) == if w in D then Expire(k, w, s[w], now) else s[w]
    }

    lemma RunsProcessed(k: Kind, s: map<Watcher, Run>, D: set<Watcher>, now: real)
      requires Runs(k) == Advance(k, s, D, now)
      ensures Processed(k, s, D, now)
    {
      assert Runs(k).Keys == s.Keys;
      forall w | w in s ensures w in queue.ws && w.kind == k && RunOf(w) == Advance(k, s, D, now)[w] {
        assert w in Runs(k) && Runs(k)[w] == RunOf(w);
      }
      forall w | w in queue.ws && w.kind == k ensures w in s {
        assert w in Runs(k);
      }
    }

    ghost function HeapOf(k: Kind): (res: Heap) {
      if k == Timer then timers else periodics
    }

    /** The root of a heap is the next watcher to extract. */
    lemma RootIsNext(k: Kind, s: map<Watcher, Run>, D: set<Watcher>, now: real, w: Watcher)
      requires HeapsOk() && Tame() && (k == Timer || k == Periodic) && Processed(k, s, D, now)
      requires HeapOf(k).h != [] && HeapOf(k).h[0].w == w && HeapOf(k).h[0].at < now
      requires forall x :: x in D && x in s ==> !Expire(k, x, s[x], now).on || Expire(k, x, s[x], now).at >= now
      ensures w in s && w !in D && s[w].on && s[w].at < now
      ensures forall x :: x in s && x !in D && s[x].on ==> s[w].at <= s[x].at
    {
      var heap := HeapOf(k);
      assert w in heap.Ws();
      forall x | x in s && x !in D && s[x].on ensures s[w].at <= s[x].at {
        assert x in heap.Ws();
        var i :| 0 <= i < |heap.h| && heap.h[i].w == x;
        RootIsLeast(heap.h, |heap.h|, i);
      }
    }

    /** The repeating case of timers_reify. */
    method TimerRenew(w: Watcher)
      requires HeapsOk() && timers.h != [] && w == timers.h[0].w && w.repeat != 0.0
      modifies timers, Started(Timer)`active, w`at
      ensures HeapsOk() && Became(w, Expire(Timer, w, old(RunOf(w)), mnNow))
    {
      var at := w.at + w.repeat;
      if at < mnNow {
        at := mnNow;
      }
      TimerSink(at);
    }

    /** The repeating case of periodics_reify. */
    method PeriodicRenew(w: Watcher)
      requires HeapsOk() && Tame() && periodics.h != [] && w == periodics.h[0].w && Scheduled(w, RunOf(w))
      modifies periodics, Started(Periodic)`active, w`at
      ensures HeapsOk() && Became(w, Expire(Periodic, w, old(RunOf(w)), rtNow))
    {
      assert w in periodics.Ws();
      var at := NextOf(w);
      PeriodicSink(at);
    }

    /** The pure account of a watcher's events being discarded. */
    lemma DiscardedNow(l: Layout, log: seq<Entry>, w: Watcher)
      requires l.slots.Keys == queue.ws && w in queue.ws && w.pending == 0 && l.lengths == RowLengths(queue.pendings)
      requires forall x :: x in queue.ws && x != w ==> x.pending == l.slots[x]
      requires l.slots[w] == 0 ==> queue.log == log
      requires l.slots[w] != 0 ==> exists e :: queue.log == log + [Taken(w, e, How.Dropped)]
      ensures Discarded(l, log, {w}, queue.Shape(), queue.log)
    {
      hide Queue.SlotsOf;
      var e :| l.slots[w] == 0 || queue.log == log + [Taken(w, e, How.Dropped)];
      DiscardOne(l, log, w, e);
      assert queue.Shape().slots == l.slots[w := 0];
    }

    lemma NothingDiscarded(l: Layout, log: seq<Entry>)
      requires l.slots.Keys == queue.ws && l.lengths == RowLengths(queue.pendings) && queue.log == log
      requires forall x :: x in queue.ws ==> x.pending == l.slots[x]
      ensures Discarded(l, log, {}, queue.Shape(), queue.log)
    {
      hide Discarded, Queue.SlotsOf;
      assert queue.Shape().slots == l.slots;
      DiscardNone(l, log);
    }

    /** One turn of the loop in timers_reify. */
    method ReifyTimer(w: Watcher)
      requires Valid() && timers.h != [] && w == timers.h[0].w
      modifies timers, Started(Timer)`active, w`at, w`pending, queue`pendings, queue`log
      ensures Valid() && Became(w, Expire(Timer, w, old(RunOf(w)), mnNow))
      ensures w.repeat == 0.0 ==> OnlyDiscarded(w)
      ensures w.repeat != 0.0 ==> w.pending == old(w.pending) && queue.log == old(queue.log) && queue.pendings == old(queue.pendings)
    {
      assert w in timers.Ws();
      if w.repeat != 0.0 {
        TimerRenew(w);
      } else {
        TimerStop(w);
      }
    }

    /** One turn of the loop in periodics_reify. */
    method ReifyPeriodic(w: Watcher)
      requires Valid() && periodics.h != [] && w == periodics.h[0].w
      modifies periodics, Started(Periodic)`active, w`at, w`pending, queue`pendings, queue`log
      ensures Valid() && Became(w, Expire(Periodic, w, old(RunOf(w)), rtNow))
      ensures OneShot(Periodic, w, old(RunOf(w))) ==> OnlyDiscarded(w)
      ensures !OneShot(Periodic, w, old(RunOf(w))) ==>
        w.pending == old(w.pending) && queue.log == old(queue.log) && queue.pendings == old(queue.pendings)
    {
      assert w in periodics.Ws();
      if w.rescheduler || w.interval != 0.0 {
        PeriodicRenew(w);
      } else {
        PeriodicStop(w);
      }
    }

    /** What such a turn does to the queue. */
    method TimerTurn(w: Watcher)
      requires Valid() && timers.h != [] && w == timers.h[0].w && w in queue.ws
      modifies timers, Started(Timer)`active, w`at, w`pending, queue`pendings, queue`log
      ensures Valid() && Became(w, Expire(Timer, w, old(RunOf(w)), mnNow))
      ensures Discarded(old(queue.Shape()), old(queue.log), if w.repeat == 0.0 then {w} else {}, queue.Shape(), queue.log)
    {
      hide Discarded, Queue.Valid, Queue.Shape, Loop.HeapsOk, Loop.Tame, Loop.Became, Expire;
      ghost var l, log := queue.Shape(), queue.log;
      ReifyTimer(w);
      if w.repeat == 0.0 {
        DiscardedNow(l, log, w);
      } else {
        NothingDiscarded(l, log);
      }
    }

    method PeriodicTurn(w: Watcher)
      requires Valid() && periodics.h != [] && w == periodics.h[0].w && w in queue.ws
      modifies periodics, Started(Periodic)`active, w`at, w`pending, queue`pendings, queue`log
      ensures Valid() && Became(w, Expire(Periodic, w, old(RunOf(w)), rtNow))
      ensures Discarded(old(queue.Shape()), old(queue.log), if OneShot(Periodic, w, old(RunOf(w))) then {w} else {},
                        queue.Shape(), queue.log)
    {
      hide Discarded, Queue.Valid, Queue.Shape, Loop.HeapsOk, Loop.Tame, Loop.Became, Expire;
      ghost var l, log := queue.Shape(), queue.log;
      ReifyPeriodic(w);
      if OneShot(Periodic, w, old(RunOf(w))) {
        DiscardedNow(l, log, w);
      } else {
        NothingDiscarded(l, log);
      }
    }

    /** An expired watcher that stays started is due no earlier than now. */
    lemma ExpiresLater(k: Kind, w: Watcher, r: Run, now: real)
      requires Tame() && w in queue.ws && r.repeat == w.repeat && r.interval == w.interval
      ensures Expire(k, w, r, now).on ==> Expire(k, w, r, now).at >= now
    {
      if w.interval > 0.0 {
        RecalcBrackets(r.offset, r.interval, now);
      }
    }

    lemma AllLater(k: Kind, s: map<Watcher, Run>, D: set<Watcher>, now: real)
      requires Tame() && Processed(k, s, D, now)
      requires forall w :: w in D ==> w in s && s[w].on
      ensures forall w :: w in D ==> !Expire(k, w, s[w], now).on || Expire(k, w, s[w], now).at >= now
    {
      forall w | w in D ensures !Expire(k, w, s[w], now).on || Expire(k, w, s[w], now).at >= now {
        ExpiresLater(k, w, s[w], now);
      }
    }

    lemma Extracting(k: Kind, E: seq<Watcher>, s: map<Watcher, Run>, l: Layout, log: seq<Entry>, D: set<Watcher>, now: real,
                     l1: Layout, log1: seq<Entry>, w: Watcher)
      requires HeapsOk() && Tame() && (k == Timer || k == Periodic)
      requires HeapOf(k).h != [] && HeapOf(k).h[0].w == w && HeapOf(k).h[0].at < now
      requires Account(k, now, s, l, log, D, E, Runs(k), l1, log1)
      ensures w in s && w !in D && s[w].on && RunOf(w) == s[w] && Extracted(E + [w], D + {w}, s, now)
      ensures w in Started(k)
    {
      RunsProcessed(k, s, D, now);
      AllLater(k, s, D, now);
      RootIsNext(k, s, D, now, w);
      ExtractNext(E, D, s, now, w);
    }

    lemma OneRunChanged(k: Kind, s: map<Watcher, Run>, w: Watcher)
      requires s.Keys == Runs(k).Keys && forall x :: x in s && x != w ==> RunOf(x) == s[x]
      ensures Runs(k) == if w in s then s[w := RunOf(w)] else s
    {
      hide Loop.Runs;
    }

    /** One turn of the loop in timers_reify, as it looks from outside. */
    method TimerStep(w: Watcher)
      requires Valid() && timers.h != [] && w == timers.h[0].w
      modifies timers, Started(Timer)`active, w`at, w`pending, queue`pendings, queue`log
      ensures Valid() && w in queue.ws && w.kind == Timer
      ensures Runs(Timer) == old(Runs(Timer))[w := Expire(Timer, w, old(RunOf(w)), mnNow)]
      ensures Runs(Periodic) == old(Runs(Periodic))
      ensures Discarded(old(queue.Shape()), old(queue.log), if w.repeat == 0.0 then {w} else {}, queue.Shape(), queue.log)
    {
      assert w in timers.Ws() && w in queue.ws && w.kind == Timer;
      hide Discarded, Queue.Valid, Queue.Shape, Loop.Runs, Loop.HeapsOk, Loop.Tame;
      ghost var st, sp := Runs(Timer), Runs(Periodic);
      TimerTurn(w);
      OneRunChanged(Timer, st, w);
      OneRunChanged(Periodic, sp, w);
    }

    /** One turn of the loop in periodics_reify, as it looks from outside. */
    method PeriodicStep(w: Watcher)
      requires Valid() && periodics.h != [] && w == periodics.h[0].w
      modifies periodics, Started(Periodic)`active, w`at, w`pending, queue`pendings, queue`log
      ensures Valid() && w in queue.ws && w.kind == Periodic
      ensures Runs(Periodic) == old(Runs(Periodic))[w := Expire(Periodic, w, old(RunOf(w)), rtNow)]
      ensures Runs(Timer) == old(Runs(Timer))
      ensures Discarded(old(queue.Shape()), old(queue.log), if OneShot(Periodic, w, old(RunOf(w))) then {w} else {},
                        queue.Shape(), queue.log)
    {
      assert w in periodics.Ws() && w in queue.ws && w.kind == Periodic;
      hide Discarded, Queue.Valid, Queue.Shape, Loop.Runs, Loop.HeapsOk, Loop.Tame;
      ghost var st, sp := Runs(Timer), Runs(Periodic);
      PeriodicTurn(w);
      OneRunChanged(Timer, st, w);
      OneRunChanged(Periodic, sp, w);
    }

    /** feed_reverse, as it looks from outside. */
    method Collect(w: Watcher)
      requires Valid()
      modifies queue`rfeeds
      ensures Valid() && queue.rfeeds == old(queue.rfeeds) + [w] && queue.Shape() == old(queue.Shape())
      ensures Runs(Timer) == old(Runs(Timer)) && Runs(Periodic) == old(Runs(Periodic))
    {
      hide Queue.Valid, Queue.Shape, Heap.Valid, Loop.Tame, Loop.Runs;
      queue.FeedReverse(w);
    }

    method TimersNext(ghost s: map<Watcher, Run>, ghost l: Layout, ghost log: seq<Entry>, ghost D: set<Watcher>)
      returns (w: Watcher)
      requires Valid() && timers.h != [] && timers.h[0].at < mnNow
      requires Account(Timer, mnNow, s, l, log, D, queue.rfeeds, Runs(Timer), queue.Shape(), queue.log)
      modifies timers, Started(Timer)`active, Started(Timer)`at, Started(Timer)`pending
      modifies queue`pendings, queue`log, queue`rfeeds
      ensures Valid() && w in s && w !in D && w in old(Started(Timer))
      ensures Account(Timer, mnNow, s, l, log, D + {w}, queue.rfeeds, Runs(Timer), queue.Shape(), queue.log)
      ensures Runs(Periodic) == old(Runs(Periodic))
    {
      hide Account, Discarded, Extracted, Advance, Expire, Queue.Valid, Loop.Tame, Heap.Valid, Queue.Shape, Loop.Runs;
      w := timers.h[0].w;
      Extracting(Timer, queue.rfeeds, s, l, log, D, mnNow, queue.Shape(), queue.log, w);
      ghost var E, runs, l1, log1 := queue.rfeeds, Runs(Timer), queue.Shape(), queue.log;
      TimerStep(w);
      AccountMore(Timer, mnNow, s, l, log, D, E, runs, l1, log1, w, queue.Shape(), queue.log);
      Collect(w);
    }

    method PeriodicsNext(ghost s: map<Watcher, Run>, ghost l: Layout, ghost log: seq<Entry>, ghost D: set<Watcher>)
      returns (w: Watcher)
      requires Valid() && periodics.h != [] && periodics.h[0].at < rtNow
      requires Account(Periodic, rtNow, s, l, log, D, queue.rfeeds, Runs(Periodic), queue.Shape(), queue.log)
      modifies periodics, Started(Periodic)`active, Started(Periodic)`at, Started(Periodic)`pending
      modifies queue`pendings, queue`log, queue`rfeeds
      ensures Valid() && w in s && w !in D && w in old(Started(Periodic))
      ensures Account(Periodic, rtNow, s, l, log, D + {w}, queue.rfeeds, Runs(Periodic), queue.Shape(), queue.log)
      ensures Runs(Timer) == old(Runs(Timer))
    {
      hide Account, Discarded, Extracted, Advance, Expire, Queue.Valid, Loop.Tame, Heap.Valid, Queue.Shape, Loop.Runs;
      w := periodics.h[0].w;
      Extracting(Periodic, queue.rfeeds, s, l, log, D, rtNow, queue.Shape(), queue.log, w);
      ghost var E, runs, l1, log1 := queue.rfeeds, Runs(Periodic), queue.Shape(), queue.log;
      PeriodicStep(w);
      AccountMore(Periodic, rtNow, s, l, log, D, E, runs, l1, log1, w, queue.Shape(), queue.log);
      Collect(w);
    }

    /** When the root of a heap has not expired, nothing is left to extract. */
    lemma AllExtracted(k: Kind, now: real, s: map<Watcher, Run>, l: Layout, log: seq<Entry>, D: set<Watcher>,
                       E: seq<Watcher>, l1: Layout, log1: seq<Entry>)
      requires HeapsOk() && Tame() && (k == Timer || k == Periodic)
      requires Account(k, now, s, l, log, D, E, Runs(k), l1, log1)
      requires HeapOf(k).h == [] || HeapOf(k).h[0].at >= now
      ensures D == Expired(s, now) && NoneBelow(k, now)
    {
      hide Discarded, Expire;
      var heap := HeapOf(k);
      RunsProcessed(k, s, D, now);
      forall w | w in Started(k) ensures w.at >= now {
        assert w in heap.Ws();
        var i :| 0 <= i < |heap.h| && heap.h[i].w == w;
        RootIsLeast(heap.h, |heap.h|, i);
      }
    }

    /** No started watcher of kind k has expired. */
    ghost predicate NoneBelow(k: Kind, now: real)
      reads queue.ws`active, queue.ws`at, queue.ws`repeat, queue.ws`offset, queue.ws`interval
    {
      Expired(Runs(k), now) == {}
    }

    /** What a pass over the expired watchers of kind k does: E lists them, and
        once the one-shot ones have been stopped the queue is mid, midLog. */
    twostate predicate Reified(k: Kind, now: real, new E: seq<Watcher>, new mid: Layout, new midLog: seq<Entry>)
      reads queue.ws
    {
      Account(k, now, old(Runs(k)), old(queue.Shape()), old(queue.log), Expired(old(Runs(k)), now), E, Runs(k), mid, midLog)
    }

    /** timers_reify up to feed_reverse_done.  The do/while of the C code, entered
        under the guard it repeats, is a while loop. */
    method CollectTimers()
      requires Valid() && queue.rfeeds == []
      modifies timers, Started(Timer)`active, Started(Timer)`at, Started(Timer)`pending
      modifies queue`pendings, queue`log, queue`rfeeds
      ensures Valid() && NoneBelow(Timer, mnNow) && Runs(Periodic) == old(Runs(Periodic))
      ensures Reified(Timer, mnNow, queue.rfeeds, queue.Shape(), queue.log)
    {
      hide Account, Queue.Valid, Queue.SlotsOf, Loop.RunsOf;
      ghost var s, l, log, D := Runs(Timer), queue.Shape(), queue.log, {};
      ghost var all := Started(Timer);
      AccountNone(Timer, mnNow, s, l, log);
      while timers.h != [] && timers.h[0].at < mnNow
        invariant Valid() && Account(Timer, mnNow, s, l, log, D, queue.rfeeds, Runs(Timer), queue.Shape(), queue.log)
        invariant Runs(Periodic) == old(Runs(Periodic)) && Started(Timer) <= all
        decreases s.Keys - D
      {
        ghost var w := TimersNext(s, l, log, D);
        D := D + {w};
      }
      AllExtracted(Timer, mnNow, s, l, log, D, queue.rfeeds, queue.Shape(), queue.log);
    }

    /** periodics_reify up to feed_reverse_done: the inner loop. */
    method CollectPeriodics()
      requires Valid() && queue.rfeeds == []
      modifies periodics, Started(Periodic)`active, Started(Periodic)`at, Started(Periodic)`pending
      modifies queue`pendings, queue`log, queue`rfeeds
      ensures Valid() && NoneBelow(Periodic, rtNow) && Runs(Timer) == old(Runs(Timer))
      ensures Reified(Periodic, rtNow, queue.rfeeds, queue.Shape(), queue.log)
    {
      hide Account, Queue.Valid, Queue.SlotsOf, Loop.RunsOf;
      ghost var s, l, log, D := Runs(Periodic), queue.Shape(), queue.log, {};
      ghost var all := Started(Periodic);
      AccountNone(Periodic, rtNow, s, l, log);
      while periodics.h != [] && periodics.h[0].at < rtNow
        invariant Valid() && Account(Periodic, rtNow, s, l, log, D, queue.rfeeds, Runs(Periodic), queue.Shape(), queue.log)
        invariant Runs(Timer) == old(Runs(Timer)) && Started(Periodic) <= all
        decreases s.Keys - D
      {
        ghost var w := PeriodicsNext(s, l, log, D);
        D := D + {w};
      }
      AllExtracted(Periodic, rtNow, s, l, log, D, queue.rfeeds, queue.Shape(), queue.log);
    }

    ghost predicate Feedable(E: seq<Watcher>, l: Layout) {
      && l.slots.Keys == queue.ws && |l.lengths| == NUMPRI
      && forall i :: 0 <= i < |E| ==> E[i] in queue.ws && E[i].pri < NUMPRI
    }

    lemma ExpiredFeedable(k: Kind, now: real, s: map<Watcher, Run>, l: Layout, log: seq<Entry>)
      requires queue.Valid() && s.Keys <= queue.ws
      requires Account(k, now, s, l, log, Expired(s, now), queue.rfeeds, Runs(k), queue.Shape(), queue.log)
      ensures Feedable(queue.rfeeds, queue.Shape())
    {
    }

    method FeedCollected(revents: Mask)
      requires Valid() && Feedable(queue.rfeeds, queue.Shape())
      modifies queue`pendings, queue`log, queue`rfeeds, queue.ws`pending
      ensures Valid() && queue.rfeeds == []
      ensures queue.Shape() == old(queue.Shape()).FeedFrom(old(queue.rfeeds), 0)
      ensures queue.log == FedFrom(old(queue.log), old(queue.rfeeds), 0, revents)
      ensures Runs(Timer) == old(Runs(Timer)) && Runs(Periodic) == old(Runs(Periodic))
    {
      hide Queue.Valid, Queue.Shape, Loop.Tame, Loop.Runs, Heap.Valid, Layout.FeedFrom, FedFrom;
      queue.FeedCollected(revents);
    }

    /** timers_reify */
    method TimersReify() returns (ghost E: seq<Watcher>, ghost mid: Layout, ghost midLog: seq<Entry>)
      requires Valid() && queue.rfeeds == []
      modifies timers, queue, queue.ws`active, queue.ws`at, queue.ws`pending
      ensures Valid() && queue.rfeeds == [] && NoneBelow(Timer, mnNow) && Runs(Periodic) == old(Runs(Periodic))
      ensures Reified(Timer, mnNow, E, mid, midLog)
      ensures Feedable(E, mid) && queue.Shape() == mid.FeedFrom(E, 0) && queue.log == FedFrom(midLog, E, 0, {Timeout})
    {
      hide Account, Queue.Valid, Loop.HeapsOk, Loop.Tame, FedFrom, Expired, Queue.Shape, Loop.Runs, Layout.FeedFrom;
      CollectTimers();
      ExpiredFeedable(Timer, mnNow, old(Runs(Timer)), old(queue.Shape()), old(queue.log));
      E, mid, midLog := queue.rfeeds, queue.Shape(), queue.log;
      FeedCollected({Timeout});
    }

    /** periodics_reify.  The outer loop of the C code makes at most one turn:
        after one pass of the inner loop its guard fails. */
    method PeriodicsReify() returns (ghost E: seq<Watcher>, ghost mid: Layout, ghost midLog: seq<Entry>)
      requires Valid() && queue.rfeeds == []
      modifies periodics, queue, queue.ws`active, queue.ws`at, queue.ws`pending
      ensures Valid() && queue.rfeeds == [] && NoneBelow(Periodic, rtNow) && Runs(Timer) == old(Runs(Timer))
      ensures Reified(Periodic, rtNow, E, mid, midLog)
      ensures Feedable(E, mid) && queue.Shape() == mid.FeedFrom(E, 0) && queue.log == FedFrom(midLog, E, 0, {Period})
    {
      hide Account, Queue.Valid, Loop.HeapsOk, Loop.Tame, FedFrom, Expired, Queue.Shape, Loop.Runs, Layout.FeedFrom;
      CollectPeriodics();
      ExpiredFeedable(Periodic, rtNow, old(Runs(Periodic)), old(queue.Shape()), old(queue.log));
      E, mid, midLog := queue.rfeeds, queue.Shape(), queue.log;
      FeedCollected({Period});
    }

    // ---------- calling back ----------

    /** The time fields of all watchers, and the history of the queue. */
    ghost function Here(): (s: World)
      reads queue`log, queue.ws`active, queue.ws`at, queue.ws`repeat, queue.ws`offset, queue.ws`interval
      ensures s.runs.Keys == queue.ws && s.log == queue.log
      ensures forall w :: w in queue.ws ==> s.runs[w] == RunOf(w)
    {
      World(RunsOf(queue.ws), queue.log)
    }

    lemma HereIs(s: World)
      requires s.runs.Keys == queue.ws && s.log == queue.log && forall w :: w in queue.ws ==> s.runs[w] == RunOf(w)
      ensures Here() == s
    {
      hide RunsOf;
    }

    /** Only the time fields of w have changed. */
    lemma RanHere(s: World, w: Watcher)
      requires s.runs.Keys == queue.ws && s.log == queue.log && w in queue.ws
      requires forall x :: x in queue.ws && x != w ==> RunOf(x) == s.runs[x]
      ensures Here() == s.Ran(w, RunOf(w))
    {
      HereIs(s.Ran(w, RunOf(w)));
    }

    /** And what was owed to w has been taken off the queue. */
    lemma TookHere(s: World, w: Watcher, how: How)
      requires queue.Valid() && s.runs.Keys == queue.ws && w in queue.ws
      requires forall x :: x in queue.ws && x != w ==> RunOf(x) == s.runs[x]
      requires Owed(s.log, w).None? ==> queue.log == s.log
      requires Owed(s.log, w).Some? ==> exists e :: queue.log == s.log + [Taken(w, e, how)]
      ensures Here() == s.Took(w, how).Ran(w, RunOf(w))
    {
      queue.HonestLog();
      hide Queue.Valid, Owed;
      if Owed(s.log, w).Some? {
        var e :| queue.log == s.log + [Taken(w, e, how)];
        HonestLast(s.log, Taken(w, e, how));
      }
      HereIs(s.Took(w, how).Ran(w, RunOf(w)));
    }

    lemma ClearedHere(s: World, w: Watcher, e: Mask)
      requires queue.Valid() && s.runs.Keys == queue.ws && w in queue.ws && forall x :: x in queue.ws ==> RunOf(x) == s.runs[x]
      requires queue.log == if Owed(s.log, w).None? then s.log else s.log + [Taken(w, e, Cleared)]
      ensures Here() == s.Took(w, Cleared)
    {
      queue.HonestLog();
      hide Queue.Valid, Owed;
      if Owed(s.log, w).Some? {
        HonestLast(s.log, Taken(w, e, Cleared));
      }
      HereIs(s.Took(w, Cleared));
    }

    twostate predicate NoDelivery()
      reads queue, queue.ws
    {
      Undelivered(old(queue.Shape()), old(queue.log), queue.Shape(), queue.log)
    }

    method CallFeed(w: Watcher, events: Mask)
      requires Valid() && w in queue.ws
      modifies queue`pendings, queue`log, w`pending
      ensures Valid() && NoDelivery() && Here() == Effect(FeedOp(w, events), old(Here()), mnNow, rtNow)
    {
      hide Queue.Valid, Undelivered, Loop.Here, Queue.Shape, Heap.Valid, Loop.Tame;
      ghost var s := Here();
      queue.RowsOk();
      FeedUndelivered(queue.Shape(), queue.log, w, events);
      queue.FeedEvent(w, events);
      HereIs(s.Logged(Fed(w, events)));
    }

    lemma QueueValid()
      requires Valid()
      ensures queue.Valid()
    {
    }

    /** ev_clear_pending */
    method ClearPending(w: Watcher) returns (e: Mask)
      requires Valid() && w in queue.ws
      modifies queue`pendings, queue`log, w`pending
      ensures Valid() && w.pending == 0 && RowLengths(queue.pendings) == RowLengths(old(queue.pendings))
      ensures queue.log == if old(w.pending) == 0 then old(queue.log) else old(queue.log) + [Taken(w, e, Cleared)]
    {
      hide Queue.Valid, Heap.Valid, Loop.Tame, Owed, Queue.SlotsOf;
      ghost var l := queue.Shape();
      e := queue.ClearPending(w);
      assert queue.Shape().slots[w] == 0 && queue.Shape().lengths == l.lengths;
    }

    method DoClear(w: Watcher) returns (e: Mask)
      requires Valid() && w in queue.ws
      modifies queue`pendings, queue`log, w`pending
      ensures Valid() && w.pending == 0 && RowLengths(queue.pendings) == RowLengths(old(queue.pendings))
      ensures queue.log == if old(w.pending) == 0 then old(queue.log) else old(queue.log) + [Taken(w, e, Cleared)]
      ensures Here() == Effect(ClearOp(w), old(Here()), mnNow, rtNow)
    {
      queue.OwedIfPending(w);
      hide Queue.Valid, Loop.Valid, Loop.Here, Owed, Effect, RowLengths, World.Took;
      ghost var s := Here();
      ClearEffect(w, s, mnNow, rtNow);
      e := ClearPending(w);
      QueueValid();
      ClearedHere(s, w, e);
    }

    method CallClear(w: Watcher)
      requires Valid() && w in queue.ws
      modifies queue`pendings, queue`log, w`pending
      ensures Valid() && NoDelivery() && Here() == Effect(ClearOp(w), old(Here()), mnNow, rtNow)
    {
      hide Queue.Valid, Undelivered, Queue.Shape, Loop.Here, Loop.Valid, Effect;
      ghost var l, log := queue.Shape(), queue.log;
      var e := DoClear(w);
      queue.ShapeIs(l.(slots := l.slots[w := 0]));
      TakeUndelivered(l, log, w, e, Cleared, queue.Shape(), queue.log);
    }

    /** Discarding the events of w delivers nothing. */
    lemma DiscardDelivers(l: Layout, log: seq<Entry>, w: Watcher)
      requires l.slots.Keys == queue.ws && w in queue.ws && w.pending == 0 && l.lengths == RowLengths(queue.pendings)
      requires forall x :: x in queue.ws && x != w ==> x.pending == l.slots[x]
      requires l.slots[w] == 0 ==> queue.log == log
      requires l.slots[w] != 0 ==> exists e :: queue.log == log + [Taken(w, e, How.Dropped)]
      ensures Undelivered(l, log, queue.Shape(), queue.log)
    {
      assert queue.Shape().slots == l.slots[w := 0];
      var e :| l.slots[w] == 0 || queue.log == log + [Taken(w, e, How.Dropped)];
      TakeUndelivered(l, log, w, e, How.Dropped, queue.Shape(), queue.log);
    }

    method DoTimerStop(w: Watcher)
      requires Valid() && w in queue.ws && w.kind == Timer
      modifies timers, Started(Timer)`active, w`at, w`pending, queue`pendings, queue`log
      ensures Valid() && OnlyDiscarded(w) && Here() == Effect(TimerStopOp(w), old(Here()), mnNow, rtNow)
    {
      queue.OwedIfPending(w);
      ghost var s := Here();
      StopEffects(w, s, mnNow, rtNow);
      hide Queue.Valid, Loop.Here, Owed, Loop.HeapsOk, Loop.Tame, Effect, StartPeriodic;
      TimerStop(w);
      TookHere(s, w, How.Dropped);
    }

    method CallTimerStop(w: Watcher)
      requires Valid() && w in queue.ws && w.kind == Timer
      modifies timers, Started(Timer)`active, w`at, w`pending, queue`pendings, queue`log
      ensures Valid() && NoDelivery() && Here() == Effect(TimerStopOp(w), old(Here()), mnNow, rtNow)
    {
      hide Queue.Valid, Undelivered, Queue.Shape, Loop.Here, Loop.Valid, Effect;
      ghost var l, log := queue.Shape(), queue.log;
      DoTimerStop(w);
      DiscardDelivers(l, log, w);
    }

    lemma NothingDelivers(l: Layout, log: seq<Entry>)
      requires queue.Shape().slots == l.slots && queue.log == log
      ensures Undelivered(l, log, queue.Shape(), queue.log)
    {
    }

    method CallTimerStart(w: Watcher)
      requires Valid() && w in queue.ws && w.kind == Timer
      modifies timers, Started(Timer)`active, w`active, w`at
      ensures Valid() && NoDelivery() && Here() == Effect(TimerStartOp(w), old(Here()), mnNow, rtNow)
    {
      hide Queue.Valid, Undelivered, Loop.Here, Loop.HeapsOk, Loop.Tame;
      ghost var l, s := queue.Shape(), Here();
      TimerStart(w);
      NothingDelivers(l, queue.log);
      RanHere(s, w);
    }

    method DoTimerAgain(w: Watcher)
      requires Valid() && w in queue.ws && w.kind == Timer
      modifies timers, Started(Timer)`active, w`active, w`at, w`pending, queue`pendings, queue`log
      ensures Valid() && Here() == Effect(TimerAgainOp(w), old(Here()), mnNow, rtNow)
      ensures w.repeat == 0.0 && old(w.active) != 0 ==> OnlyDiscarded(w)
      ensures w.repeat != 0.0 || old(w.active) == 0 ==>
        w.pending == old(w.pending) && queue.log == old(queue.log) && queue.pendings == old(queue.pendings)
    {
      queue.OwedIfPending(w);
      ghost var s := Here();
      AgainEffects(w, s, mnNow, rtNow);
      hide Queue.Valid, Loop.Here, Owed, Loop.HeapsOk, Loop.Tame, Effect;
      TimerAgain(w);
      if s.runs[w].on && s.runs[w].repeat == 0.0 {
        TookHere(s, w, How.Dropped);
      } else {
        RanHere(s, w);
      }
    }

    method CallTimerAgain(w: Watcher)
      requires Valid() && w in queue.ws && w.kind == Timer
      modifies timers, Started(Timer)`active, w`active, w`at, w`pending, queue`pendings, queue`log
      ensures Valid() && NoDelivery() && Here() == Effect(TimerAgainOp(w), old(Here()), mnNow, rtNow)
    {
      hide Queue.Valid, Undelivered, Queue.Shape, Loop.Here, Loop.Valid, Effect;
      ghost var l, log := queue.Shape(), queue.log;
      DoTimerAgain(w);
      if old(w.repeat == 0.0 && w.active != 0) {
        DiscardDelivers(l, log, w);
      } else {
        queue.ShapeIs(l);
        NothingDelivers(l, log);
      }
    }

    method CallPeriodicStart(w: Watcher)
      requires Valid() && w in queue.ws && w.kind == Periodic
      modifies periodics, Started(Periodic)`active, w`active, w`at
      ensures Valid() && NoDelivery() && Here() == Effect(PeriodicStartOp(w), old(Here()), mnNow, rtNow)
    {
      hide Queue.Valid, Undelivered, Loop.Here, Loop.HeapsOk, Loop.Tame;
      ghost var l, s := queue.Shape(), Here();
      PeriodicStart(w);
      NothingDelivers(l, queue.log);
      RanHere(s, w);
    }

    method DoPeriodicStop(w: Watcher)
      requires Valid() && w in queue.ws && w.kind == Periodic
      modifies periodics, Started(Periodic)`active, w`pending, queue`pendings, queue`log
      ensures Valid() && OnlyDiscarded(w) && Here() == Effect(PeriodicStopOp(w), old(Here()), mnNow, rtNow)
    {
      queue.OwedIfPending(w);
      ghost var s := Here();
      StopEffects(w, s, mnNow, rtNow);
      hide Queue.Valid, Loop.Here, Owed, Loop.HeapsOk, Loop.Tame, Effect, StartPeriodic;
      PeriodicStop(w);
      TookHere(s, w, How.Dropped);
    }

    method CallPeriodicStop(w: Watcher)
      requires Valid() && w in queue.ws && w.kind == Periodic
      modifies periodics, Started(Periodic)`active, w`pending, queue`pendings, queue`log
      ensures Valid() && NoDelivery() && Here() == Effect(PeriodicStopOp(w), old(Here()), mnNow, rtNow)
    {
      hide Queue.Valid, Undelivered, Queue.Shape, Loop.Here, Loop.Valid, Effect;
      ghost var l, log := queue.Shape(), queue.log;
      DoPeriodicStop(w);
      DiscardDelivers(l, log, w);
    }

    method DoPeriodicAgain(w: Watcher)
      requires Valid() && w in queue.ws && w.kind == Periodic
      modifies periodics, Started(Periodic)`active, w`active, w`at, w`pending, queue`pendings, queue`log
      ensures Valid() && OnlyDiscarded(w) && Here() == Effect(PeriodicAgainOp(w), old(Here()), mnNow, rtNow)
    {
      queue.OwedIfPending(w);
      ghost var s := Here();
      AgainEffects(w, s, mnNow, rtNow);
      hide Queue.Valid, Loop.Here, Owed, Loop.HeapsOk, Loop.Tame, Effect, StartPeriodic;
      PeriodicAgain(w);
      TookHere(s, w, How.Dropped);
    }

    method CallPeriodicAgain(w: Watcher)
      requires Valid() && w in queue.ws && w.kind == Periodic
      modifies periodics, Started(Periodic)`active, w`active, w`at, w`pending, queue`pendings, queue`log
      ensures Valid() && NoDelivery() && Here() == Effect(PeriodicAgainOp(w), old(Here()), mnNow, rtNow)
    {
      hide Queue.Valid, Undelivered, Queue.Shape, Loop.Here, Loop.Valid, Effect;
      ghost var l, log := queue.Shape(), queue.log;
      DoPeriodicAgain(w);
      DiscardDelivers(l, log, w);
    }

    /** One operation in a callback. */
    method Perform(op: Op)
      requires Valid() && OpOk(op, queue.ws)
      modifies timers, periodics, queue, queue.ws`active, queue.ws`at, queue.ws`pending
      ensures Valid() && NoDelivery() && queue.rfeeds == old(queue.rfeeds)
      ensures Here() == Effect(op, old(Here()), mnNow, rtNow)
    {
      hide Queue.Valid, Undelivered, Loop.Tame, Loop.HeapsOk, Loop.Here, Effect;
      match op
      case FeedOp(w, events) => CallFeed(w, events);
      case ClearOp(w) => CallClear(w);
      case TimerStartOp(w) => CallTimerStart(w);
      case TimerStopOp(w) => CallTimerStop(w);
      case TimerAgainOp(w) => CallTimerAgain(w);
      case PeriodicStartOp(w) => CallPeriodicStart(w);
      case PeriodicStopOp(w) => CallPeriodicStop(w);
      case PeriodicAgainOp(w) => CallPeriodicAgain(w);
    }

    method RunCallback(ops: seq<Op>)
      requires Valid() && forall i :: 0 <= i < |ops| ==> OpOk(ops[i], queue.ws)
      modifies timers, periodics, queue, queue.ws`active, queue.ws`at, queue.ws`pending
      ensures Valid() && NoDelivery() && queue.rfeeds == old(queue.rfeeds)
      ensures Here() == Effects(ops, old(Here()), mnNow, rtNow) && (ops == [] ==> queue.pendings == old(queue.pendings))
    {
      hide Queue.Valid, Undelivered, Loop.Tame, Loop.HeapsOk, Loop.Here, Effect, Effects, Queue.Shape;
      ghost var l0, log0, s := queue.Shape(), queue.log, Here();
      NothingDelivers(l0, log0);
      NoEffects(s, mnNow, rtNow);
      for i := 0 to |ops|
        invariant Valid() && Undelivered(l0, log0, queue.Shape(), queue.log) && queue.rfeeds == old(queue.rfeeds)
        invariant Here() == Effects(ops[..i], s, mnNow, rtNow) && (i == 0 ==> queue.pendings == old(queue.pendings))
      {
        ghost var l, log := queue.Shape(), queue.log;
        EffectsMore(ops, i, s, mnNow, rtNow);
        Perform(ops[i]);
        UndeliveredTrans(l0, log0, l, log, queue.Shape(), queue.log);
      }
      assert ops[..|ops|] == ops;
    }

    ghost predicate ScriptOk(script: seq<seq<Op>>) {
      forall i, j :: 0 <= i < |script| && 0 <= j < |script[i]| ==> OpOk(script[i][j], queue.ws)
    }

    /** Taking the last slot of a row off the queue disturbs nothing else. */
    method PopOne(pri: nat) returns (w: Watcher, events: Mask)
      requires Valid() && pri < NUMPRI && |queue.pendings| == NUMPRI && queue.pendings[pri] != []
      modifies queue`pendings, queue`log, queue.ws`pending, queue.pendingW`pending
      ensures Valid() && queue.Shape().Fits() && |queue.pendings| == NUMPRI
      ensures |queue.pendings[pri]| < |old(queue.pendings)[pri]|
      ensures w == queue.pendingW ==>
        queue.log == old(queue.log) && queue.Shape() == old(queue.Shape()).Shorter(pri) && Here() == old(Here())
      ensures w != queue.pendingW ==>
        && w in queue.ws && w.pri == pri && old(w.pending) == |old(queue.pendings)[pri]|
        && queue.log == old(queue.log) + [Taken(w, events, Invoked)]
        && queue.Shape() == old(queue.Shape()).Shorter(pri).(slots := old(queue.Shape()).slots[w := 0])
        && Here() == old(Here()).Logged(Taken(w, events, Invoked))
    {
      hide Queue.Valid, Queue.Shape, Layout.Fits, Loop.Tame, Heap.Valid, Loop.Here;
      ghost var s := Here();
      w, events := queue.Pop(pri);
      queue.ShapeFits();
      queue.RowsOk();
      queue.RowLength(pri);
      HereIs(if w == queue.pendingW then s else s.Logged(Taken(w, events, Invoked)));
    }

    /** A callback disturbs the order of what is pending no more than the
        operations that it is made of. */
    method CallBack(ops: seq<Op>, pri: nat, ghost l: Layout, ghost log0: seq<Entry>)
      requires Valid() && pri < NUMPRI && forall i :: 0 <= i < |ops| ==> OpOk(ops[i], queue.ws)
      requires Emptying(l, log0, pri, queue.Shape(), queue.log)
      modifies timers, periodics, queue, queue.ws`active, queue.ws`at, queue.ws`pending
      ensures Valid() && Emptying(l, log0, pri, queue.Shape(), queue.log) && queue.rfeeds == old(queue.rfeeds)
      ensures |queue.pendings| == NUMPRI && Here() == Effects(ops, old(Here()), mnNow, rtNow)
      ensures ops == [] ==> queue.pendings == old(queue.pendings)
    {
      hide Queue.Valid, Emptying, Undelivered, Loop.Tame, Loop.HeapsOk, Queue.Shape, Layout.Fits, Effects;
      ghost var now, log := queue.Shape(), queue.log;
      RunCallback(ops);
      queue.ShapeFits();
      queue.RowsOk();
      EmptyingCallback(l, log0, pri, now, log, queue.Shape(), queue.log);
    }

    /** One turn of the inner loop of ev_invoke_pending.  Unless the slot is dead,
        the callback does what the script says next. */
    method InvokeOne(pri: nat, script: seq<seq<Op>>, ghost l: Layout, ghost log0: seq<Entry>)
      returns (rest: seq<seq<Op>>, ghost called: Option<Call>)
      requires Valid() && pri < NUMPRI && |queue.pendings| == NUMPRI && queue.pendings[pri] != [] && ScriptOk(script)
      requires Emptying(l, log0, pri, queue.Shape(), queue.log)
      modifies timers, periodics, queue, queue.ws`active, queue.ws`at, queue.ws`pending, queue.pendingW`pending
      ensures Valid() && Emptying(l, log0, pri, queue.Shape(), queue.log) && queue.rfeeds == old(queue.rfeeds)
      ensures |queue.pendings| == NUMPRI
      ensures match called
        case None => rest == script && Here() == old(Here())
        case Some(c) =>
          && rest == Later(script)
          && Here() == Effects(Nth(script, 0), old(Here()).Logged(Taken(c.w, c.events, Invoked)), mnNow, rtNow)
      ensures |rest| < |script| || (rest == script && |queue.pendings[pri]| < |old(queue.pendings)[pri]|)
    {
      hide Queue.Valid, Emptying, Undelivered, Loop.Tame, Loop.HeapsOk, Queue.Shape, Layout.Fits, Loop.Here, Effects;
      ghost var now, log := queue.Shape(), queue.log;
      var w, events := PopOne(pri);
      rest, called := script, None;
      if w == queue.pendingW {
        NothingDelivers(now, log);
        EmptyingCallback(l, log0, pri, now, log, queue.Shape(), queue.log);
      } else {
        EmptyingPop(l, log0, pri, now, log, w, events);
        rest, called := Later(script), Some(Call(w, events));
        CallBack(Nth(script, 0), pri, l, log0);
      }
    }

    /** ev_invoke_pending.  The callbacks are called in order; each is called
        with the events taken off the queue for it, and does all that the script
        says it does before the next one is called. */
    method InvokePending(script: seq<seq<Op>>) returns (ghost calls: seq<Call>)
      requires Valid() && ScriptOk(script)
      modifies timers, periodics, queue, queue.ws`active, queue.ws`at, queue.ws`pending, queue.pendingW`pending
      ensures Valid() && queue.rfeeds == old(queue.rfeeds)
      ensures old(queue.log) <= queue.log
      ensures InOrder(old(queue.Shape()), |old(queue.log)|, queue.log)
      ensures forall w :: w in queue.ws && old(w.pending) != 0 ==> TakenSince(queue.log, |old(queue.log)|, w)
      ensures Here() == Played(calls, script, old(Here()), mnNow, rtNow)
    {
      hide Queue.Valid, Undelivered, Loop.Tame, Loop.HeapsOk, Loop.Here, Played, Effects;
      ghost var l, log0, s := queue.Shape(), queue.log, Here();
      var todo := script;
      calls := [];
      queue.ShapeFits();
      queue.RowsOk();
      NonePlayed(script, s, mnNow, rtNow);
      for pri := NUMPRI downto 0
        invariant Valid() && |queue.pendings| == NUMPRI && todo == From(script, |calls|)
        invariant Emptying(l, log0, pri - 1, queue.Shape(), queue.log) && queue.rfeeds == old(queue.rfeeds)
        invariant Here() == Played(calls, script, s, mnNow, rtNow)
      {
        while queue.pendings[pri] != []
          invariant Valid() && |queue.pendings| == NUMPRI && todo == From(script, |calls|)
          invariant Emptying(l, log0, pri, queue.Shape(), queue.log) && queue.rfeeds == old(queue.rfeeds)
          invariant Here() == Played(calls, script, s, mnNow, rtNow)
          decreases |todo|, |queue.pendings[pri]|
        {
          ghost var called;
          todo, called := InvokeOne(pri, todo, l, log0);
          if called.Some? {
            PlayedMore(calls, called.value, script, s, mnNow, rtNow);
            calls := calls + [called.value];
          }
        }
        EmptyingRowDone(l, log0, pri, queue.Shape(), queue.log);
      }
    }

    /** The watchers that have expired, of either kind. */
    ghost function AllExpired(): (res: set<Watcher>)
      reads this`mnNow, this`rtNow, queue.ws
    {
      Expired(Runs(Timer), mnNow) + Expired(Runs(Periodic), rtNow)
    }

    lemma InTurn(l0: Layout, log0: seq<Entry>, st: map<Watcher, Run>, T: seq<Watcher>, rt1: map<Watcher, Run>, m1: Layout, log1: seq<Entry>,
                 log2: seq<Entry>, sp: map<Watcher, Run>, P: seq<Watcher>, rp1: map<Watcher, Run>, m2: Layout, log3: seq<Entry>)
      requires l0.Fits() && l0.slots.Keys == queue.ws && Feedable(T, m1) && Feedable(P, m2)
      requires Account(Timer, mnNow, st, l0, log0, Expired(st, mnNow), T, rt1, m1, log1)
      requires Account(Periodic, rtNow, sp, m1.FeedFrom(T, 0), log2, Expired(sp, rtNow), P, rp1, m2, log3)
      requires (forall w :: w in st ==> w.kind == Timer) && (forall w :: w in sp ==> w.kind == Periodic)
      requires forall w :: w in Expired(st, mnNow) + Expired(sp, rtNow) ==> w in l0.slots && l0.slots[w] == 0
      ensures FedInTurn(l0, m1, T, m2, P, m2.FeedFrom(P, 0))
    {
      forall i | 0 <= i < |P| ensures m2.slots[P[i]] == 0 {
        assert P[i] in Expired(sp, rtNow) && P[i].kind == Periodic;
        FeedingLeaves(m1, T, 0, P[i]);
      }
    }

    lemma NoneWaitingNoneOwed()
      requires queue.Valid()
      ensures NoneWaiting(queue.Shape(), AllExpired()) ==> NoneOwed(queue.log, AllExpired())
    {
      if NoneWaiting(queue.Shape(), AllExpired()) {
        forall w | w in AllExpired() ensures Owed(queue.log, w) == None {
          queue.NotPendingNotOwed(w);
        }
      }
    }

    /** Both reify passes of one iteration of ev_run. */
    method ReifyBoth()
      requires Valid() && queue.rfeeds == []
      modifies timers, periodics, queue, queue.ws`active, queue.ws`at, queue.ws`pending
      ensures Valid() && queue.rfeeds == [] && NoneBelow(Timer, mnNow) && NoneBelow(Periodic, rtNow)
      ensures Runs(Timer) == Advance(Timer, old(Runs(Timer)), Expired(old(Runs(Timer)), mnNow), mnNow)
      ensures Runs(Periodic) == Advance(Periodic, old(Runs(Periodic)), Expired(old(Runs(Periodic)), rtNow), rtNow)
      ensures NoneWaiting(old(queue.Shape()), old(AllExpired())) ==>
        Lined(queue.Shape(), old(AllExpired()), old(Runs(Timer)), old(Runs(Periodic)))
      ensures OnlyReified(old(queue.log), queue.log) && DueOwes(queue.log, old(AllExpired()))
      ensures NoneWaiting(old(queue.Shape()), old(AllExpired())) ==> DueOwed(queue.log, old(AllExpired()))
    {
      hide Account, Queue.Valid, Loop.Tame, Loop.HeapsOk, FedFrom, Lined, Advance, Layout.Fits, OnlyReified, DueOwed, DueOwes, NoneOwed, Queue.SlotsOf, Loop.RunsOf;
      ghost var l0, log0, st, sp := queue.Shape(), queue.log, Runs(Timer), Runs(Periodic);
      queue.ShapeFits();
      NoneWaitingNoneOwed();
      ghost var T, m1, log1 := TimersReify();
      ghost var rt, log2 := Runs(Timer), queue.log;
      AccountRuns(Timer, mnNow, st, l0, log0, Expired(st, mnNow), T, rt, m1, log1);
      ghost var P, m2, log3 := PeriodicsReify();
      AccountRuns(Periodic, rtNow, sp, m1.FeedFrom(T, 0), log2, Expired(sp, rtNow), P, Runs(Periodic), m2, log3);
      BothPasses(mnNow, st, l0, log0, T, rt, m1, log1, rtNow, sp, m1.FeedFrom(T, 0), log2, P, Runs(Periodic), m2, log3);
      if NoneWaiting(l0, Expired(st, mnNow) + Expired(sp, rtNow)) {
        LinedUp(l0, log0, st, T, rt, m1, log1, log2, sp, P, Runs(Periodic), m2, log3);
      }
    }

    lemma LinedUp(l0: Layout, log0: seq<Entry>, st: map<Watcher, Run>, T: seq<Watcher>, rt1: map<Watcher, Run>, m1: Layout, log1: seq<Entry>,
                  log2: seq<Entry>, sp: map<Watcher, Run>, P: seq<Watcher>, rp1: map<Watcher, Run>, m2: Layout, log3: seq<Entry>)
      requires l0.Fits() && l0.slots.Keys == queue.ws && Feedable(T, m1) && Feedable(P, m2)
      requires Account(Timer, mnNow, st, l0, log0, Expired(st, mnNow), T, rt1, m1, log1)
      requires Account(Periodic, rtNow, sp, m1.FeedFrom(T, 0), log2, Expired(sp, rtNow), P, rp1, m2, log3)
      requires (forall w :: w in st ==> w.kind == Timer) && (forall w :: w in sp ==> w.kind == Periodic)
      requires forall w :: w in Expired(st, mnNow) + Expired(sp, rtNow) ==> w in l0.slots && l0.slots[w] == 0
      ensures Lined(m2.FeedFrom(P, 0), Expired(st, mnNow) + Expired(sp, rtNow), st, sp)
    {
      InTurn(l0, log0, st, T, rt1, m1, log1, log2, sp, P, rp1, m2, log3);
      hide FedInTurn, Layout.Fits, Lined, Extracted, Discarded, Advance, Layout.FeedFrom;
      DueLined(st, mnNow, T, sp, rtNow, P, l0, m1, m2, m2.FeedFrom(P, 0));
    }

    /** What is owed its due event is pending. */
    lemma DuePending(X: set<Watcher>)
      requires queue.Valid() && X <= queue.ws && DueOwes(queue.log, X)
      ensures forall w :: w in X ==> w.pending != 0
    {
      forall w | w in X ensures w.pending != 0 {
        if w.pending == 0 {
          queue.NotPendingNotOwed(w);
        }
      }
    }

    /** What the two passes make of the time fields. */
    ghost predicate AllExpire(was: map<Watcher, Run>, X: set<Watcher>, now: map<Watcher, Run>)
      reads this`mnNow, this`rtNow
    {
      now.Keys == was.Keys && forall w :: w in was && w.kind != Other ==>
        now[w] == if w in X then Expire(w.kind, w, was[w], if w.kind == Timer then mnNow else rtNow) else was[w]
    }

    lemma BothExpired(was: map<Watcher, Run>, st: map<Watcher, Run>, sp: map<Watcher, Run>)
      requires was.Keys == queue.ws && st.Keys == Runs(Timer).Keys && sp.Keys == Runs(Periodic).Keys
      requires (forall w :: w in st ==> st[w] == was[w]) && forall w :: w in sp ==> sp[w] == was[w]
      requires Runs(Timer) == Advance(Timer, st, Expired(st, mnNow), mnNow)
      requires Runs(Periodic) == Advance(Periodic, sp, Expired(sp, rtNow), rtNow)
      ensures AllExpire(was, Expired(st, mnNow) + Expired(sp, rtNow), Here().runs)
    {
      hide Loop.RunsOf, Loop.Here, Loop.Runs, Advance, Expire;
      forall w | w in was && w.kind == Timer
        ensures RunOf(w) == if w in Expired(st, mnNow) then Expire(Timer, w, was[w], mnNow) else was[w] {
        assert w in Runs(Timer) && w in st;
      }
      forall w | w in was && w.kind == Periodic
        ensures RunOf(w) == if w in Expired(sp, rtNow) then Expire(Periodic, w, was[w], rtNow) else was[w] {
        assert w in Runs(Periodic) && w in sp;
      }
    }

    /** The part of ev_run that follows the poll, from timers_reify to the
        callbacks, when no idle or check watchers are started.  The two reify
        passes lead to mid: they only feed and discard, leave each expired
        watcher owed its due event, and start it anew or stop it.  The callbacks
        make the rest, each doing all that the script says; each expired watcher
        is first taken off the queue with its due event.  If none was pending
        already, nothing else is owed to them and callbacks come in order:
        whatever the callbacks do to the queue, an expired watcher is not called
        back for what is due to it while one due sooner still waits. */
    method CallExpired(script: seq<seq<Op>>) returns (ghost mid: World, ghost calls: seq<Call>)
      requires Valid() && queue.rfeeds == [] && ScriptOk(script)
      modifies timers, periodics, queue, queue.ws`active, queue.ws`at, queue.ws`pending, queue.pendingW`pending
      ensures Valid() && OnlyReified(old(queue.log), mid.log) && AllExpire(old(Here()).runs, old(AllExpired()), mid.runs)
      ensures Here() == Played(calls, script, mid, mnNow, rtNow)
      ensures DueOwes(mid.log, old(AllExpired())) && DueTaken(queue.log, |mid.log|, old(AllExpired()))
      ensures NoneWaiting(old(queue.Shape()), old(AllExpired())) ==>
        && DueOwed(mid.log, old(AllExpired()))
        && CalledInOrder(old(AllExpired()), old(Runs(Timer)), old(Runs(Periodic)), |mid.log|, queue.log)
    {
      hide Queue.Valid, Queue.Shape, Loop.Tame, Loop.HeapsOk, Loop.Runs, Loop.Here, Loop.AllExpire, Loop.AllExpired,
        InOrder, Lined, CalledInOrder, OnlyReified, DueOwed, DueOwes, DueTaken, Honest, Played, NoneWaiting;
      mid := ReifyInto();
      ghost var l, X, st, sp := queue.Shape(), old(AllExpired()), old(Runs(Timer)), old(Runs(Periodic));
      calls := InvokePending(script);
      queue.HonestLog();
      assert queue.log[..|mid.log|] == mid.log;
      OwedThenTaken(queue.log, |mid.log|, X);
      if Lined(l, X, st, sp) {
        LinedThenCalled(l, X, st, sp, |mid.log|, queue.log);
      }
    }

    /** The two reify passes, and what they lead to. */
    method ReifyInto() returns (ghost mid: World)
      requires Valid() && queue.rfeeds == []
      modifies timers, periodics, queue, queue.ws`active, queue.ws`at, queue.ws`pending
      ensures Valid() && queue.rfeeds == [] && mid == Here() && old(AllExpired()) <= queue.ws
      ensures OnlyReified(old(queue.log), mid.log) && AllExpire(old(Here()).runs, old(AllExpired()), mid.runs)
      ensures DueOwes(mid.log, old(AllExpired())) && forall w :: w in old(AllExpired()) ==> w.pending != 0
      ensures NoneWaiting(old(queue.Shape()), old(AllExpired())) ==>
        && DueOwed(mid.log, old(AllExpired()))
        && Lined(queue.Shape(), old(AllExpired()), old(Runs(Timer)), old(Runs(Periodic)))
    {
      hide Queue.Valid, Queue.Shape, Loop.Tame, Loop.HeapsOk, Loop.RunsOf, Loop.Here, Loop.AllExpire, Advance, Expire,
        Lined, OnlyReified, DueOwed, DueOwes, NoneWaiting;
      ghost var was := Here();
      ReifyBoth();
      mid := Here();
      BothExpired(was.runs, old(Runs(Timer)), old(Runs(Periodic)));
      DuePending(old(AllExpired()));
    }

    // ---------- clock changes ----------

    /** timers_reschedule */
    method TimersReschedule(adjust: real)
      requires HeapsOk()
      modifies timers, Started(Timer)`at
      ensures HeapsOk()
      ensures forall w :: w in queue.ws ==>
        RunOf(w) == if w in old(Started(Timer)) then old(RunOf(w)).(at := old(w.at) + adjust) else old(RunOf(w))
    {
      timers.AddToAll(adjust);
    }

    /** periodics_reschedule */
    method PeriodicsReschedule()
      requires HeapsOk() && Tame()
      modifies periodics, Started(Periodic)`active, Started(Periodic)`at
      ensures HeapsOk()
      ensures forall w :: w in queue.ws ==>
        RunOf(w) == if w.kind == Periodic then Rescheduled(w, old(RunOf(w)), rtNow) else old(RunOf(w))
      ensures forall w :: w in queue.ws && w.kind == Periodic && w.active != 0 && Scheduled(w, RunOf(w)) && LongEnough(w, w.interval) ==>
        DueAt(w, w.offset, w.interval, rtNow, w.at)
    {
      hide DueAt, LongEnough, Heap.Valid, NextExpiry;
      RescheduleAll();
      forall w | w in queue.ws && w.kind == Periodic && w.active != 0 && Scheduled(w, RunOf(w)) && LongEnough(w, w.interval)
        ensures DueAt(w, w.offset, w.interval, rtNow, w.at) {
        NextIsDue(w, old(RunOf(w)), rtNow);
      }
    }

    method RescheduleAll()
      requires HeapsOk() && Tame()
      modifies periodics, Started(Periodic)`active, Started(Periodic)`at
      ensures HeapsOk()
      ensures forall w :: w in queue.ws ==>
        RunOf(w) == if w.kind == Periodic then Rescheduled(w, old(RunOf(w)), rtNow) else old(RunOf(w))
    {
      RecalcPeriodics();
      periodics.Rebuild();
      periodics.ValidActive();
    }

    method RecalcOne(w: Watcher)
      requires w.interval >= 0.0 && w.active != 0
      modifies w`at
      ensures RunOf(w) == Rescheduled(w, old(RunOf(w)), rtNow)
    {
      if w.rescheduler || w.interval != 0.0 {
        w.at := NextOf(w);
      }
    }

    method RecalcPeriodics()
      requires HeapsOk() && Tame()
      modifies periodics, Started(Periodic)`at
      ensures timers != periodics && timers.Valid() && timers.Ws() == Started(Timer)
      ensures periodics.Indexed(periodics.Ws()) && periodics.Cached() && periodics.Ws() == Started(Periodic)
      ensures forall w :: w in queue.ws ==>
        RunOf(w) == if w in old(Started(Periodic)) then Rescheduled(w, old(RunOf(w)), rtNow) else old(RunOf(w))
    {
      hide Rescheduled, Ordered;
      ghost var g, was := periodics.h, Runs(Periodic);
      SameWatchers(g);
      RecalcEntries(g, was);
      assert Watchers(periodics.h) == Watchers(g);
    }

    lemma SameWatchers(g: seq<Anhe>)
      requires HeapsOk() && g == periodics.h
      ensures forall i :: 0 <= i < |g| ==> g[i].w in Started(Periodic) && g[i].w.active == i + HEAP0
      ensures forall w :: w in Started(Periodic) ==> exists i :: 0 <= i < |g| && g[i].w == w
    {
      forall i | 0 <= i < |g| ensures g[i].w in Started(Periodic) {
        assert g[i].w in periodics.Ws();
      }
      forall w | w in Started(Periodic) ensures exists i :: 0 <= i < |g| && g[i].w == w {
        assert w in periodics.Ws();
      }
    }

    method RecalcEntries(ghost g: seq<Anhe>, ghost was: map<Watcher, Run>)
      requires periodics.h == g && Tame() && was == Runs(Periodic)
      requires forall i :: 0 <= i < |g| ==> g[i].w in Started(Periodic) && g[i].w.active == i + HEAP0
      modifies periodics, Started(Periodic)`at
      ensures |periodics.h| == |g| && forall j :: 0 <= j < |g| ==>
        periodics.h[j].w == g[j].w && periodics.h[j].at == g[j].w.at && RunOf(g[j].w) == Rescheduled(g[j].w, was[g[j].w], rtNow)
    {
      for i := 0 to |periodics.h|
        invariant |periodics.h| == |g| && forall j :: 0 <= j < |g| ==> periodics.h[j].w == g[j].w
        invariant forall j :: 0 <= j < i ==> periodics.h[j].at == g[j].w.at && RunOf(g[j].w) == Rescheduled(g[j].w, was[g[j].w], rtNow)
        invariant forall j :: i <= j < |g| ==> RunOf(g[j].w) == was[g[j].w]
      {
        RecalcOne(periodics.h[i].w);
        periodics.Cache(i);
      }
    }

    // ---------- how long to block ----------

    /** How long until a started watcher is due. */
    ghost function Distance(w: Watcher): (res: real)
      reads this`mnNow, this`rtNow, w`at
    {
      w.at - if w.kind == Timer then mnNow else rtNow
    }

    ghost predicate MayBlockFor(t: real, floor: real)
      reads this`mnNow, this`rtNow, queue.ws`active, queue.ws`at
    {
      t <= Max(floor, MAX_BLOCKTIME) && forall w :: w in Started(Timer) + Started(Periodic) ==> t <= Max(floor, Distance(w))
    }

    /** The part of the blocking time that comes from the heaps. */
    method UntilDue() returns (waittime: real)
      requires HeapsOk()
      ensures waittime <= MAX_BLOCKTIME && forall w :: w in Started(Timer) + Started(Periodic) ==> waittime <= Distance(w)
      ensures waittime == MAX_BLOCKTIME || exists w :: w in Started(Timer) + Started(Periodic) && waittime == Distance(w)
    {
      waittime := MAX_BLOCKTIME;
      NoneStarted(Timer);
      NoneStarted(Periodic);
      if timers.h != [] {
        RootIsNearest(Timer);
        var to := timers.h[0].at - mnNow;
        if waittime > to {
          waittime := to;
          assert waittime == Distance(timers.h[0].w);
        }
      }
      if periodics.h != [] {
        RootIsNearest(Periodic);
        var to := periodics.h[0].at - rtNow;
        if waittime > to {
          waittime := to;
          assert waittime == Distance(periodics.h[0].w);
        }
      }
    }

    lemma NoneStarted(k: Kind)
      requires HeapsOk() && (k == Timer || k == Periodic)
      ensures HeapOf(k).h == [] ==> Started(k) == {}
    {
      assert Started(k) == HeapOf(k).Ws();
    }

    /** The blocking time that ev_run computes.  The poll blocks for waittime,
        after a sleep of sleeptime if that is positive. */
    method BlockTime(mayBlock: bool, timeoutBlocktime: real, ioBlocktime: real, mintime: real, prevMnNow: real)
      returns (waittime: real, sleeptime: real)
      requires HeapsOk()
      ensures !mayBlock ==> waittime == 0.0 == sleeptime
      ensures mayBlock ==> var total := waittime + Max(sleeptime, 0.0);
        && Max(timeoutBlocktime, mintime) <= total && MayBlockFor(total, Max(timeoutBlocktime, mintime))
        && (total == Max(timeoutBlocktime, mintime) || total == MAX_BLOCKTIME
            || exists w :: w in Started(Timer) + Started(Periodic) && total == Distance(w))
      ensures sleeptime > 0.0 ==> waittime >= mintime && sleeptime <= ioBlocktime - (mnNow - prevMnNow)
      ensures mayBlock && ioBlocktime != 0.0 ==> sleeptime == ioBlocktime - (mnNow - prevMnNow) || waittime == mintime
      ensures !mayBlock || ioBlocktime == 0.0 ==> sleeptime == 0.0
    {
      hide HeapsOk;
      waittime, sleeptime := 0.0, 0.0;
      if mayBlock {
        waittime := UntilDue();
        if waittime < timeoutBlocktime {
          waittime := timeoutBlocktime;
        }
        if waittime < mintime {
          waittime := mintime;
        }
        if ioBlocktime != 0.0 {
          sleeptime := ioBlocktime - (mnNow - prevMnNow);
          if sleeptime > waittime - mintime {
            sleeptime := waittime - mintime;
          }
          if sleeptime > 0.0 {
            waittime := waittime - sleeptime;
          }
        }
      }
    }

    lemma RootIsNearest(k: Kind)
      requires HeapsOk() && (k == Timer || k == Periodic) && HeapOf(k).h != []
      ensures HeapOf(k).h[0].w in Started(k) && HeapOf(k).h[0].at == HeapOf(k).h[0].w.at
      ensures forall w :: w in Started(k) ==> HeapOf(k).h[0].at <= w.at
    {
      var heap := HeapOf(k);
      assert heap.h[0].w in heap.Ws();
      forall w | w in Started(k) ensures heap.h[0].at <= w.at {
        assert w in heap.Ws();
        var i :| 0 <= i < |heap.h| && heap.h[i].w == w;
        RootIsLeast(heap.h, |heap.h|, i);
      }
    }
  }
}