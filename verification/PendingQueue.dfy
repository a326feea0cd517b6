/** The queues of pending events, one per priority.

    A watcher that is pending owns one slot of the queue of its priority, and
    its `pending` field is that slot's number counted from 1.  Clearing a
    pending watcher leaves a dead slot behind, owned by the dummy `pendingW`. */
module PendingQueue {
  import opened Options
  import opened Sequences
  import opened EventMask
  import opened TimerHeap

  const NUMPRI := 5

  datatype Slot = Slot(w: Watcher, events: Mask)

  // ---------- the history of a queue ----------

  /** How a watcher's pending events left the queue: passed to its callback,
      returned by ev_clear_pending, or discarded when the watcher was stopped. */
  datatype How = Invoked | Cleared | Dropped

  datatype Entry = Fed(w: Watcher, events: Mask) | Taken(w: Watcher, events: Mask, how: How)

  /** What is owed to w after a history: the union of the events fed to it
      since they were last taken, if any. */
  ghost function Owed(log: seq<Entry>, w: Watcher): (res: Option<Mask>) {
    if log == [] then None else
    var before, last := log[..|log| - 1], log[|log| - 1];
    if last.w != w then Owed(before, w)
    else if last.Taken? then None
    else match Owed(before, w)
      case None => Some(last.events)
      case Some(e) => Some(e + last.events)
  }

  /** At least these events are owed to w. */
  ghost predicate Owes(log: seq<Entry>, w: Watcher, events: Mask) {
    match Owed(log, w) case Some(e) => events <= e case None => false
  }

  lemma OwedAppend(log: seq<Entry>, e: Entry, w: Watcher)
    ensures e.w != w ==> Owed(log + [e], w) == Owed(log, w)
    ensures e.w == w && e.Taken? ==> Owed(log + [e], w) == None
    ensures e.w == w && e.Fed? ==>
      Owed(log + [e], w) == match Owed(log, w) { case None => Some(e.events) case Some(o) => Some(o + e.events) }
  {
    assert (log + [e])[..|log|] == log;
  }

  /** Everything taken was exactly what was owed. */
  ghost predicate Honest(log: seq<Entry>) {
    forall i :: 0 <= i < |log| && log[i].Taken? ==> Owed(log[..i], log[i].w) == Some(log[i].events)
  }

  lemma HonestAppend(log: seq<Entry>, e: Entry)
    requires Honest(log) && (e.Taken? ==> Owed(log, e.w) == Some(e.events))
    ensures Honest(log + [e])
  {
    var log' := log + [e];
    forall i | 0 <= i < |log'| && log'[i].Taken? ensures Owed(log'[..i], log'[i].w) == Some(log'[i].events) {
      assert log'[..i] == log[..i];
    }
  }

  lemma HonestLast(log: seq<Entry>, e: Entry)
    requires Honest(log + [e]) && e.Taken?
    ensures Owed(log, e.w) == Some(e.events)
  {
    var log' := log + [e];
    assert log'[|log|] == e && log'[..|log|] == log;
  }

  /** Have the events of w been taken from the queue since the history had n entries? */
  ghost predicate TakenSince(log: seq<Entry>, n: nat, w: Watcher) {
    exists i :: n <= i < |log| && log[i].Taken? && log[i].w == w
  }

  /** The history after feeding `revents` to the watchers s[n..], the last one first. */
  ghost function FedFrom(log: seq<Entry>, s: seq<Watcher>, n: nat, revents: Mask): (r: seq<Entry>)
    decreases |s| - n
  {
    if n >= |s| then log else FedFrom(log, s, n + 1, revents) + [Fed(s[n], revents)]
  }

  /** What is taken only is not owed. */
  lemma {:induction false} OwedTaken(log: seq<Entry>, log': seq<Entry>, w: Watcher)
    requires log <= log' && Owed(log, w) == None && forall i :: |log| <= i < |log'| ==> log'[i].Taken?
    ensures Owed(log', w) == None
    decreases |log'|
  {
    if log' != log {
      var b := log'[..|log'| - 1];
      assert log' == b + [log'[|log'| - 1]];
      OwedTaken(log, b, w);
    }
  }

  /** What happens to others makes no difference. */
  lemma {:induction false} OwedElsewhere(log: seq<Entry>, log': seq<Entry>, w: Watcher)
    requires log <= log' && forall i :: |log| <= i < |log'| ==> log'[i].w != w
    ensures Owed(log', w) == Owed(log, w)
    decreases |log'|
  {
    if log' != log {
      var b := log'[..|log'| - 1];
      assert log' == b + [log'[|log'| - 1]];
      OwedElsewhere(log, b, w);
    }
  }

  /** Feeding some watchers, each once. */
  lemma {:induction false} OwedFed(log: seq<Entry>, s: seq<Watcher>, n: nat, revents: Mask, w: Watcher)
    requires Distinct(s) && n <= |s|
    ensures w in s[n..] ==> Owes(FedFrom(log, s, n, revents), w, revents)
    ensures w in s[n..] && Owed(log, w) == None ==> Owed(FedFrom(log, s, n, revents), w) == Some(revents)
    ensures w !in s[n..] ==> Owed(FedFrom(log, s, n, revents), w) == Owed(log, w)
    decreases |s| - n
  {
    if n < |s| {
      OwedFed(log, s, n + 1, revents, w);
      OwedAppend(FedFrom(log, s, n + 1, revents), Fed(s[n], revents), w);
      assert s[n..] == [s[n]] + s[n + 1..];
    }
  }

  lemma {:induction false} FedFromOnlyFeeds(log: seq<Entry>, s: seq<Watcher>, n: nat, revents: Mask)
    ensures var r := FedFrom(log, s, n, revents); log <= r && forall i :: |log| <= i < |r| ==> r[i].Fed?
    decreases |s| - n
  {
    if n < |s| {
      FedFromOnlyFeeds(log, s, n + 1, revents);
    }
  }

  /** Entry i is the first since entry n that takes the events of w, and they
      include these. */
  ghost predicate FirstTakes(log: seq<Entry>, n: nat, i: nat, w: Watcher, events: Mask) {
    && n <= i < |log| && log[i].Taken? && log[i].w == w && events <= log[i].events
    && forall j :: n <= j < i && log[j].Taken? ==> log[j].w != w
  }

  lemma StillOwes(log: seq<Entry>, e: Entry, w: Watcher, owed: Mask)
    requires Owes(log, w, owed) && !(e.Taken? && e.w == w)
    ensures Owes(log + [e], w, owed)
  {
    OwedAppend(log, e, w);
  }

  lemma TakesWhatIsOwed(log: seq<Entry>, i: nat, owed: Mask)
    requires Honest(log) && i < |log| && log[i].Taken? && Owes(log[..i], log[i].w, owed)
    ensures owed <= log[i].events
  {
    hide Owed;
  }

  /** What is owed is in what is taken next. */
  lemma {:induction false} OwedIsTaken(log: seq<Entry>, n: nat, w: Watcher, owed: Mask) returns (i: nat)
    requires Honest(log) && n <= |log| && Owes(log[..n], w, owed) && TakenSince(log, n, w)
    ensures FirstTakes(log, n, i, w, owed)
    decreases |log| - n
  {
    hide Honest, Owes;
    var k :| n <= k < |log| && log[k].Taken? && log[k].w == w;
    if log[n].Taken? && log[n].w == w {
      i := n;
      TakesWhatIsOwed(log, n, owed);
    } else {
      StillOwes(log[..n], log[n], w, owed);
      assert log[..n + 1] == log[..n] + [log[n]];
      i := OwedIsTaken(log, n + 1, w, owed);
    }
  }

  // ---------- where the pending watchers are ----------

  ghost function RowLengths(rows: seq<seq<Slot>>): (l: seq<nat>)
    ensures |l| == |rows| && forall p :: 0 <= p < |rows| ==> l[p] == |rows[p]|
  {
    seq(|rows|, p requires 0 <= p < |rows| => |rows[p]|)
  }

  /** The slot number of every watcher (0 when not pending) and the row lengths. */
  datatype Layout = Layout(slots: map<Watcher, nat>, lengths: seq<nat>) {
    ghost predicate Fits() {
      |lengths| == NUMPRI && forall w :: w in slots ==> w.pri < NUMPRI && slots[w] <= lengths[w.pri]
    }

    /** Feeding w gives it the next slot of its row, unless it has one. */
    ghost function Feed(w: Watcher): (l: Layout)
      requires w in slots && w.pri < |lengths|
      ensures l.slots.Keys == slots.Keys && |l.lengths| == |lengths|
    {
      if slots[w] != 0 then this
      else Layout(slots[w := lengths[w.pri] + 1], lengths[w.pri := lengths[w.pri] + 1])
    }

    /** Feeding the watchers s[n..], the last one first. */
    ghost function FeedFrom(s: seq<Watcher>, n: nat): (l: Layout)
      requires forall i :: 0 <= i < |s| ==> s[i] in slots && s[i].pri < |lengths|
      ensures l.slots.Keys == slots.Keys && |l.lengths| == |lengths|
      decreases |s| - n
    {
      if n >= |s| then this else FeedFrom(s, n + 1).Feed(s[n])
    }

    /** Row p with its last slot gone. */
    ghost function Shorter(p: nat): (res: Layout)
      requires p < |lengths| && lengths[p] > 0
    {
      this.(lengths := lengths[p := lengths[p] - 1])
    }

    /** What is pending here keeps its slot there. */
    ghost predicate KeptIn(l: Layout) {
      && slots.Keys == l.slots.Keys && |lengths| == |l.lengths|
      && (forall w :: w in slots && slots[w] != 0 ==> l.slots[w] == slots[w])
      && forall p :: 0 <= p < |lengths| ==> lengths[p] <= l.lengths[p]
    }
  }

  /** Feeding in reverse: whatever was pending keeps its slot, the newly pending
      ones all lie above, and of two of the same priority the one that comes
      first in s is above the other. */
  ghost predicate Reversed(l: Layout, m: Layout, s: seq<Watcher>, n: nat)
    requires l.slots.Keys == m.slots.Keys && |l.lengths| == |m.lengths|
    requires forall i :: 0 <= i < |s| ==> s[i] in l.slots && s[i].pri < |l.lengths|
  {
    && (forall i :: n <= i < |s| ==> m.slots[s[i]] != 0 && (l.slots[s[i]] == 0 ==> m.slots[s[i]] > l.lengths[s[i].pri]))
    && forall i, j :: n <= i < j < |s| && s[i].pri == s[j].pri && l.slots[s[i]] == 0 ==> m.slots[s[i]] > m.slots[s[j]]
  }

  lemma {:induction false} FeedingReverses(l: Layout, s: seq<Watcher>, n: nat)
    requires l.Fits() && Distinct(s) && forall i :: 0 <= i < |s| ==> s[i] in l.slots
    ensures var m := l.FeedFrom(s, n); m.Fits() && l.KeptIn(m) && Reversed(l, m, s, n)
    ensures forall i :: 0 <= i < n && i < |s| ==> l.FeedFrom(s, n).slots[s[i]] == l.slots[s[i]]
    decreases |s| - n
  {
    if n < |s| {
      FeedingReverses(l, s, n + 1);
      ReversedStep(l, l.FeedFrom(s, n + 1), s, n);
    }
  }

  lemma FeedOneMore(l: Layout, log: seq<Entry>, s: seq<Watcher>, n: nat, revents: Mask)
    requires n < |s| && forall i :: 0 <= i < |s| ==> s[i] in l.slots && s[i].pri < |l.lengths|
    ensures l.FeedFrom(s, n) == l.FeedFrom(s, n + 1).Feed(s[n])
    ensures FedFrom(log, s, n, revents) == FedFrom(log, s, n + 1, revents) + [Fed(s[n], revents)]
  {
  }

  lemma ReversedStep(l: Layout, m: Layout, s: seq<Watcher>, n: nat)
    requires l.slots.Keys == m.slots.Keys && n < |s| && Distinct(s)
    requires forall i :: 0 <= i < |s| ==> s[i] in l.slots
    requires l.Fits() && m.Fits() && l.KeptIn(m) && m.slots[s[n]] == l.slots[s[n]] && Reversed(l, m, s, n + 1)
    ensures var k := m.Feed(s[n]); k.Fits() && l.KeptIn(k) && Reversed(l, k, s, n)
  {
  }

  /** Between two states of a queue, the events of the watchers D have been
      discarded, and nothing else has happened. */
  ghost predicate Discarded(l: Layout, log: seq<Entry>, D: set<Watcher>, l': Layout, log': seq<Entry>) {
    && l'.lengths == l.lengths && l'.slots.Keys == l.slots.Keys && log <= log'
    && (forall w :: w in l.slots ==> l'.slots[w] == if w in D then 0 else l.slots[w])
    && (forall i :: |log| <= i < |log'| ==> log'[i].Taken? && log'[i].how.Dropped? && log'[i].w in D)
    && (forall w :: w in D && w in l.slots && l.slots[w] != 0 ==> TakenSince(log', |log|, w))
    && ((forall w :: w in D && w in l.slots ==> l.slots[w] == 0) ==> log' == log)
  }

  lemma DiscardMore(l0: Layout, log0: seq<Entry>, D: set<Watcher>, l1: Layout, log1: seq<Entry>,
                    D': set<Watcher>, l2: Layout, log2: seq<Entry>)
    requires Discarded(l0, log0, D, l1, log1) && Discarded(l1, log1, D', l2, log2) && D !! D'
    ensures Discarded(l0, log0, D + D', l2, log2)
  {
    forall x | x in D + D' && x in l0.slots && l0.slots[x] != 0 ensures TakenSince(log2, |log0|, x) {
      if x in D {
        var i :| |log0| <= i < |log1| && log1[i].Taken? && log1[i].w == x;
        assert log2[i] == log1[i];
      } else {
        var i :| |log1| <= i < |log2| && log2[i].Taken? && log2[i].w == x;
      }
    }
    forall i | |log0| <= i < |log2| ensures log2[i].Taken? && log2[i].how.Dropped? && log2[i].w in D + D' {
      assert i < |log1| ==> log2[i] == log1[i];
    }
    if forall x :: x in D + D' && x in l0.slots ==> l0.slots[x] == 0 {
      assert forall x :: x in D && x in l0.slots ==> x in D + D';
      assert forall x :: x in D' && x in l0.slots ==> x in D + D';
    }
  }

  lemma DiscardNone(l: Layout, log: seq<Entry>)
    ensures Discarded(l, log, {}, l, log)
  {
  }

  lemma DiscardOne(l: Layout, log: seq<Entry>, w: Watcher, e: Mask)
    requires w in l.slots
    ensures Discarded(l, log, {w}, l.(slots := l.slots[w := 0]), if l.slots[w] == 0 then log else log + [Taken(w, e, Dropped)])
  {
    var log' := log + [Taken(w, e, Dropped)];
    assert log'[|log|].Taken? && log'[|log|].w == w;
  }

  lemma {:induction false} FeedingLeaves(l: Layout, s: seq<Watcher>, n: nat, w: Watcher)
    requires w in l.slots && w !in s && forall i :: 0 <= i < |s| ==> s[i] in l.slots && s[i].pri < |l.lengths|
    ensures l.FeedFrom(s, n).slots[w] == l.slots[w]
    decreases |s| - n
  {
    if n < |s| {
      FeedingLeaves(l, s, n + 1, w);
    }
  }

  // ---------- the order of delivery ----------

  /** Between two states nothing was delivered, and the pending watchers whose
      events were not taken have kept their slots. */
  ghost predicate Undelivered(l: Layout, log: seq<Entry>, l': Layout, log': seq<Entry>) {
    && log <= log' && l'.slots.Keys == l.slots.Keys
    && (forall i :: |log| <= i < |log'| && log'[i].Taken? ==> !log'[i].how.Invoked?)
    && forall w :: w in l.slots && l.slots[w] != 0 && l'.slots[w] != l.slots[w] ==> TakenSince(log', |log|, w)
  }

  lemma TakenSinceLater(log: seq<Entry>, n: nat, log': seq<Entry>, w: Watcher)
    requires log <= log' && TakenSince(log, n, w)
    ensures TakenSince(log', n, w)
  {
    var i :| n <= i < |log| && log[i].Taken? && log[i].w == w;
    assert log'[i] == log[i];
  }

  lemma TakenSinceBefore(log: seq<Entry>, m: nat, n: nat, w: Watcher)
    requires m <= n && TakenSince(log, n, w)
    ensures TakenSince(log, m, w)
  {
  }

  lemma UndeliveredTrans(l0: Layout, log0: seq<Entry>, l1: Layout, log1: seq<Entry>, l2: Layout, log2: seq<Entry>)
    requires Undelivered(l0, log0, l1, log1) && Undelivered(l1, log1, l2, log2)
    ensures Undelivered(l0, log0, l2, log2)
  {
    forall w | w in l0.slots && l0.slots[w] != 0 && l2.slots[w] != l0.slots[w] ensures TakenSince(log2, |log0|, w) {
      if l1.slots[w] != l0.slots[w] {
        TakenSinceLater(log1, |log0|, log2, w);
      } else {
        TakenSinceBefore(log2, |log0|, |log1|, w);
      }
    }
    forall i | |log0| <= i < |log2| && log2[i].Taken? ensures !log2[i].how.Invoked? {
      assert i < |log1| ==> log2[i] == log1[i];
    }
  }

  lemma FeedUndelivered(l: Layout, log: seq<Entry>, w: Watcher, e: Mask)
    requires w in l.slots && w.pri < |l.lengths|
    ensures Undelivered(l, log, l.Feed(w), log + [Fed(w, e)])
  {
  }

  lemma TakeUndelivered(l: Layout, log: seq<Entry>, w: Watcher, e: Mask, how: How, l': Layout, log': seq<Entry>)
    requires w in l.slots && !how.Invoked? && l'.slots == l.slots[w := 0]
    requires log' == if l.slots[w] == 0 then log else log + [Taken(w, e, how)]
    ensures Undelivered(l, log, l', log')
  {
    if l.slots[w] != 0 {
      assert log'[|log|].Taken? && log'[|log|].w == w;
    }
  }

  /** v is ahead of u: of higher priority, or in a later slot of the same row. */
  ghost predicate Ahead(l: Layout, v: Watcher, u: Watcher) {
    && u in l.slots && v in l.slots && l.slots[u] != 0 && l.slots[v] != 0
    && (v.pri > u.pri || (v.pri == u.pri && l.slots[v] > l.slots[u]))
  }

  /** Entry i delivers to a watcher that had not been taken off the queue since
      the history had n entries. */
  ghost predicate FirstDelivery(n: nat, log: seq<Entry>, i: nat) {
    n <= i < |log| && log[i].Taken? && log[i].how.Invoked? && !TakenSince(log[..i], n, log[i].w)
  }

  /** Of the watchers pending in l, when the history had n entries, none is
      delivered before those ahead of it have been taken off the queue. */
  ghost predicate InOrder(l: Layout, n: nat, log: seq<Entry>) {
    forall i: nat, v :: v in l.slots && FirstDelivery(n, log, i) && Ahead(l, v, log[i].w) ==> TakenSince(log[..i], n, v)
  }

  /** The state of ev_invoke_pending while it empties row p: l is where the
      watchers were when it began, and log0 the history then. */
  ghost predicate Emptying(l: Layout, log0: seq<Entry>, p: int, now: Layout, log: seq<Entry>) {
    && log0 <= log && now.slots.Keys == l.slots.Keys && now.Fits() && InOrder(l, |log0|, log)
    && (forall w :: w in l.slots && l.slots[w] != 0 && !TakenSince(log, |log0|, w) ==>
          now.slots[w] == l.slots[w] && w.pri <= p)
  }

  lemma InOrderMore(l: Layout, n: nat, log: seq<Entry>, e: Entry)
    requires InOrder(l, n, log) && n <= |log|
    requires e.Taken? && e.how.Invoked? && !TakenSince(log, n, e.w) ==>
      forall v :: v in l.slots && Ahead(l, v, e.w) ==> TakenSince(log, n, v)
    ensures InOrder(l, n, log + [e])
  {
    var log' := log + [e];
    assert log'[..|log|] == log;
    forall i: nat, v | v in l.slots && FirstDelivery(n, log', i) && Ahead(l, v, log'[i].w)
      ensures TakenSince(log'[..i], n, v) {
      if i < |log| {
        assert log'[..i] == log[..i];
        assert FirstDelivery(n, log, i);
      }
    }
  }

  lemma {:induction false} InOrderUndelivered(l: Layout, n: nat, log: seq<Entry>, log': seq<Entry>)
    requires InOrder(l, n, log) && n <= |log| && log <= log'
    requires forall i :: |log| <= i < |log'| && log'[i].Taken? ==> !log'[i].how.Invoked?
    ensures InOrder(l, n, log')
    decreases |log'|
  {
    if |log'| > |log| {
      var m := |log'| - 1;
      InOrderUndelivered(l, n, log, log'[..m]);
      InOrderMore(l, n, log'[..m], log'[m]);
      assert log'[..m] + [log'[m]] == log';
    } else {
      assert log' == log;
    }
  }

  /** Delivering the last live slot of the row keeps the order. */
  lemma EmptyingPop(l: Layout, log0: seq<Entry>, p: nat, now: Layout, log: seq<Entry>, w: Watcher, e: Mask)
    requires Emptying(l, log0, p, now, log) && p < NUMPRI && now.lengths[p] > 0
    requires w in now.slots && w.pri == p && now.slots[w] == now.lengths[p]
    requires now.Shorter(p).(slots := now.slots[w := 0]).Fits()
    ensures Emptying(l, log0, p, now.Shorter(p).(slots := now.slots[w := 0]), log + [Taken(w, e, Invoked)])
  {
    var log' := log + [Taken(w, e, Invoked)];
    if !TakenSince(log, |log0|, w) {
      forall v | v in l.slots && Ahead(l, v, w) ensures TakenSince(log, |log0|, v) {
      }
    }
    InOrderMore(l, |log0|, log, Taken(w, e, Invoked));
    assert log'[|log|].Taken? && log'[|log|].w == w;
    forall x | x in l.slots && TakenSince(log, |log0|, x) ensures TakenSince(log', |log0|, x) {
      TakenSinceLater(log, |log0|, log', x);
    }
  }

  /** A callback that delivers nothing keeps the order. */
  lemma EmptyingCallback(l: Layout, log0: seq<Entry>, p: int, now: Layout, log: seq<Entry>, now': Layout, log': seq<Entry>)
    requires Emptying(l, log0, p, now, log) && Undelivered(now, log, now', log') && now'.Fits()
    ensures Emptying(l, log0, p, now', log')
  {
    InOrderUndelivered(l, |log0|, log, log');
    forall w | w in l.slots && l.slots[w] != 0 && !TakenSince(log', |log0|, w)
      ensures now'.slots[w] == l.slots[w] && w.pri <= p {
      if TakenSince(log, |log0|, w) {
        TakenSinceLater(log, |log0|, log', w);
      }
      if now'.slots[w] != now.slots[w] {
        TakenSinceBefore(log', |log0|, |log|, w);
      }
    }
  }

  /** An empty row is done with. */
  lemma EmptyingRowDone(l: Layout, log0: seq<Entry>, p: nat, now: Layout, log: seq<Entry>)
    requires Emptying(l, log0, p, now, log) && p < NUMPRI && now.lengths[p] == 0
    ensures Emptying(l, log0, p - 1, now, log)
  {
  }

  class Queue {
    const pendingW: Watcher
    var pendings: seq<seq<Slot>>
    var rfeeds: seq<Watcher>
    ghost const ws: set<Watcher>     // every watcher the program uses
    ghost var log: seq<Entry>

    constructor (dummy: Watcher, ghost all: set<Watcher>)
      requires dummy !in all && dummy.pri < NUMPRI && forall w :: w in all ==> w.pri < NUMPRI && w.pending == 0
      ensures Valid() && fresh(this) && pendingW == dummy && ws == all && rfeeds == [] && log == []
    {
      pendingW, ws := dummy, all;
      pendings := seq(NUMPRI, _ => []);
      rfeeds := [];
      log := [];
    }

    /** Slot i of row p is dead, or it is the slot that its watcher names. */
    ghost predicate SlotOk(p: nat, i: nat)
      requires p < |pendings| && i < |pendings[p]|
      reads `pendings, ws`pending
    {
      var w := pendings[p][i].w;
      w == pendingW || (w in ws && w.pri == p && w.pending == i + 1)
    }

    /** If w is pending, it names a slot that it owns, which holds what is owed to it. */
    ghost predicate WatcherOk(w: Watcher)
      requires w.pri < |pendings|
      reads `pendings, `log, w`pending
    {
      if w.pending == 0 then Owed(log, w) == None
      else
        && w.pending <= |pendings[w.pri]|
        && var s := pendings[w.pri][w.pending - 1];
           s.w == w && Owed(log, w) == Some(s.events)
    }

    ghost predicate Valid()
      reads `pendings, `log, ws`pending
    {
      && |pendings| == NUMPRI && pendingW !in ws
      && (forall w :: w in ws ==> w.pri < NUMPRI)
      && (forall p, i :: 0 <= p < NUMPRI && 0 <= i < |pendings[p]| ==> SlotOk(p, i))
      && (forall w :: w in ws ==> WatcherOk(w))
      && Honest(log)
    }

    lemma NotPendingNotOwed(w: Watcher)
      requires Valid() && w in ws && w.pending == 0
      ensures Owed(log, w) == None
    {
      assert WatcherOk(w);
    }

    lemma OwedIfPending(w: Watcher)
      requires Valid() && w in ws
      ensures Owed(log, w).None? <==> w.pending == 0
    {
      assert WatcherOk(w);
    }

    lemma HonestLog()
      requires Valid()
      ensures Honest(log)
    {
    }

    ghost function SlotsOf(ws: set<Watcher>): (slots: map<Watcher, nat>)
      reads ws`pending
      ensures slots.Keys == ws && forall w :: w in ws ==> slots[w] == w.pending
    {
      if ws == {} then map[] else
      var w :| w in ws;
      SlotsOf(ws - {w})[w := w.pending]
    }

    ghost function Shape(): (l: Layout)
      reads `pendings, ws`pending
      ensures l.slots.Keys == ws && forall w :: w in ws ==> l.slots[w] == w.pending
      ensures l.lengths == RowLengths(pendings)
    {
      Layout(SlotsOf(ws), RowLengths(pendings))
    }

    lemma ShapeIs(l: Layout)
      requires l.slots.Keys == ws && l.lengths == RowLengths(pendings) && forall w :: w in ws ==> l.slots[w] == w.pending
      ensures Shape() == l
    {
      hide SlotsOf;
    }

    lemma RowsOk()
      requires Valid()
      ensures |pendings| == NUMPRI && forall w :: w in ws ==> w.pri < NUMPRI
    {
    }

    lemma RowLength(p: nat)
      requires p < |pendings|
      ensures Shape().lengths[p] == |pendings[p]|
    {
    }

    lemma ShapeFits()
      requires Valid()
      ensures Shape().Fits()
    {
      forall w | w in ws ensures w.pending <= |pendings[w.pri]| {
        assert WatcherOk(w);
      }
    }

    /** The watchers other than w are as they should be after an entry for w. */
    lemma OthersOk(before: seq<Entry>, e: Entry)
      requires log == before + [e]
      ensures forall w {:trigger Owed(log, w)} :: w != e.w ==> Owed(log, w) == Owed(before, w)
    {
      forall w | w != e.w ensures Owed(log, w) == Owed(before, w) {
        OwedAppend(before, e, w);
      }
    }

    /** After an operation on w, the slots that are not its own are as before. */
    twostate lemma SlotsStillOk(w: Watcher)
      requires old(Valid()) && w in ws && |pendings| == NUMPRI
      requires forall x :: x in ws && x != w ==> x.pending == old(x.pending)
      requires forall p, i :: 0 <= p < NUMPRI && 0 <= i < |pendings[p]| ==>
        SlotOk(p, i) || (i < |old(pendings)[p]| && pendings[p][i] == old(pendings)[p][i] && !(p == w.pri && i + 1 == old(w.pending)))
      ensures forall p, i :: 0 <= p < NUMPRI && 0 <= i < |pendings[p]| ==> SlotOk(p, i)
    {
      forall p, i | 0 <= p < NUMPRI && 0 <= i < |pendings[p]| ensures SlotOk(p, i) {
        if !SlotOk(p, i) {
          assert old(SlotOk(p, i));
        }
      }
    }

    /** ev_feed_event */
    method FeedEvent(w: Watcher, revents: Mask)
      requires Valid() && w in ws
      modifies this`pendings, this`log, w`pending
      ensures Valid() && log == old(log) + [Fed(w, revents)]
      ensures Shape() == old(Shape()).Feed(w)
    {
      HonestAppend(log, Fed(w, revents));
      RowsOk();
      hide Valid, Honest, Shape, RowLengths;
      ghost var l := Shape();
      RowLength(w.pri);
      if w.pending != 0 {
        Merge(w, revents);
        ShapeIs(l);
      } else {
        Push(w, revents);
        ShapeIs(Layout(l.slots[w := w.pending], l.lengths[w.pri := w.pending]));
      }
    }

    method Merge(w: Watcher, revents: Mask)
      requires Valid() && w in ws && w.pending != 0 && Honest(log + [Fed(w, revents)])
      modifies this`pendings, this`log
      ensures Valid() && log == old(log) + [Fed(w, revents)]
      ensures RowLengths(pendings) == RowLengths(old(pendings))
    {
      assert WatcherOk(w);
      var pri, i := w.pri, w.pending - 1;
      pendings := pendings[pri := pendings[pri][i := Slot(w, pendings[pri][i].events + revents)]];
      log := log + [Fed(w, revents)];
      OwedAppend(old(log), Fed(w, revents), w);
      OthersOk(old(log), Fed(w, revents));
      SlotsStillOk(w);
    }

    method Push(w: Watcher, revents: Mask)
      requires Valid() && w in ws && w.pending == 0 && Honest(log + [Fed(w, revents)])
      modifies this`pendings, this`log, w`pending
      ensures Valid() && log == old(log) + [Fed(w, revents)]
      ensures w.pending == |old(pendings)[w.pri]| + 1
      ensures RowLengths(pendings) == RowLengths(old(pendings))[w.pri := w.pending]
    {
      assert WatcherOk(w);
      var pri := w.pri;
      w.pending := |pendings[pri]| + 1;
      pendings := pendings[pri := pendings[pri] + [Slot(w, revents)]];
      log := log + [Fed(w, revents)];
      OwedAppend(old(log), Fed(w, revents), w);
      OthersOk(old(log), Fed(w, revents));
      SlotsStillOk(w);
    }

    /** Kills the slot of a pending watcher. */
    method Kill(w: Watcher, ghost how: How) returns (events: Mask)
      requires Valid() && w in ws && w.pending != 0
      modifies this`pendings, this`log, w`pending
      ensures Valid() && w.pending == 0
      ensures RowLengths(pendings) == RowLengths(old(pendings))
      ensures log == old(log) + [Taken(w, events, how)]
    {
      var pri, i := w.pri, w.pending - 1;
      assert WatcherOk(w);
      events := pendings[pri][i].events;
      HonestAppend(log, Taken(w, events, how));
      OwedAppend(log, Taken(w, events, how), w);
      pendings := pendings[pri := pendings[pri][i := Slot(pendingW, events)]];
      w.pending := 0;
      log := log + [Taken(w, events, how)];
      OthersOk(old(log), Taken(w, events, how));
      SlotsStillOk(w);
    }

    twostate lemma SameLengths(w: Watcher)
      requires w.pri < |old(pendings)| && w in ws && w.pending == 0
      requires RowLengths(pendings) == RowLengths(old(pendings))
      requires forall x :: x in ws && x != w ==> x.pending == old(x.pending)
      ensures Shape() == old(Shape()).(slots := old(Shape()).slots[w := 0])
    {
      assert Shape().slots == old(Shape()).slots[w := 0];
    }

    /** clear_pending, the quiet form used when a watcher is stopped. */
    method Drop(w: Watcher)
      requires Valid() && w in ws
      modifies this`pendings, this`log, w`pending
      ensures Valid() && w.pending == 0 && RowLengths(pendings) == RowLengths(old(pendings))
      ensures log == if old(w.pending) == 0 then old(log) else old(log) + [Taken(w, Owed(old(log), w).value, How.Dropped)]
    {
      assert WatcherOk(w);
      if w.pending != 0 {
        var _ := Kill(w, How.Dropped);
      }
    }

    /** ev_clear_pending: 0 when w was not pending, else what was fed to it. */
    method ClearPending(w: Watcher) returns (events: Mask)
      requires Valid() && w in ws
      modifies this`pendings, this`log, w`pending
      ensures Valid() && Shape() == old(Shape()).(slots := old(Shape()).slots[w := 0])
      ensures old(w.pending) == 0 <==> Owed(old(log), w) == None
      ensures match Owed(old(log), w)
        case None => events == {} && log == old(log)
        case Some(e) => events == e && log == old(log) + [Taken(w, e, Cleared)]
    {
      assert WatcherOk(w);
      if w.pending != 0 {
        events := Kill(w, Cleared);
        SameLengths(w);
      } else {
        events := {};
      }
    }

    /** One turn of the inner loop of ev_invoke_pending, up to the callback:
        takes the last slot of row pri off the queue.  A dead slot calls the
        dummy callback, which does nothing. */
    method Pop(pri: nat) returns (w: Watcher, events: Mask)
      requires Valid() && pri < NUMPRI && pendings[pri] != []
      modifies this`pendings, this`log, ws`pending, pendingW`pending
      ensures Valid()
      ensures w == pendingW ==> log == old(log) && Shape() == old(Shape()).Shorter(pri)
      ensures w != pendingW ==>
        && w in ws && w.pri == pri && old(w.pending) == |old(pendings)[pri]|
        && log == old(log) + [Taken(w, events, Invoked)]
        && Shape() == old(Shape()).Shorter(pri).(slots := old(Shape()).slots[w := 0])
    {
      hide Shape;
      ghost var l := Shape();
      RowLength(pri);
      var n := |pendings[pri]| - 1;
      assert SlotOk(pri, n);
      var s := pendings[pri][n];
      w, events := s.w, s.events;
      if w == pendingW {
        DropDead(pri);
        w.pending := 0;
        ShapeIs(l.Shorter(pri));
      } else {
        LastIsOwed(pri);
        hide Valid, Honest;
        PopLive(pri, w);
        ShapeIs(l.Shorter(pri).(slots := l.slots[w := 0]));
      }
    }

    /** The last slot of a row, if it is not dead, holds what is owed to its watcher. */
    lemma LastIsOwed(pri: nat)
      requires Valid() && pri < NUMPRI && |pendings| == NUMPRI && pendings[pri] != []
      requires pendings[pri][|pendings[pri]| - 1].w != pendingW
      ensures var s := pendings[pri][|pendings[pri]| - 1];
        s.w in ws && s.w.pri == pri && s.w.pending == |pendings[pri]| && Honest(log + [Taken(s.w, s.events, Invoked)])
    {
      var n := |pendings[pri]| - 1;
      var s := pendings[pri][n];
      assert SlotOk(pri, n) && WatcherOk(s.w);
      HonestAppend(log, Taken(s.w, s.events, Invoked));
    }

    method DropDead(pri: nat)
      requires Valid() && pri < NUMPRI && pendings[pri] != [] && pendings[pri][|pendings[pri]| - 1].w == pendingW
      modifies this`pendings
      ensures Valid() && RowLengths(pendings) == RowLengths(old(pendings))[pri := |old(pendings)[pri]| - 1]
    {
      pendings := pendings[pri := pendings[pri][..|pendings[pri]| - 1]];
      forall w | w in ws ensures WatcherOk(w) {
        assert old(WatcherOk(w));
      }
      forall p, i | 0 <= p < NUMPRI && 0 <= i < |pendings[p]| ensures SlotOk(p, i) {
        assert old(SlotOk(p, i));
      }
    }

    method PopLive(pri: nat, w: Watcher)
      requires Valid() && pri < NUMPRI && pendings[pri] != [] && w in ws
      requires pendings[pri][|pendings[pri]| - 1].w == w && w.pri == pri && w.pending == |pendings[pri]|
      requires Honest(log + [Taken(w, pendings[pri][w.pending - 1].events, Invoked)])
      modifies this`pendings, this`log, w`pending
      ensures Valid() && w.pending == 0
      ensures RowLengths(pendings) == RowLengths(old(pendings))[pri := |old(pendings)[pri]| - 1]
      ensures log == old(log) + [Taken(w, old(pendings)[pri][old(w.pending) - 1].events, Invoked)]
    {
      ghost var e := Taken(w, pendings[pri][w.pending - 1].events, Invoked);
      pendings := pendings[pri := pendings[pri][..|pendings[pri]| - 1]];
      w.pending := 0;
      log := log + [e];
      OwedAppend(old(log), e, w);
      OthersOk(old(log), e);
      SlotsStillOk(w);
      forall x | x in ws && x != w ensures WatcherOk(x) {
        assert old(WatcherOk(x));
      }
    }

    method FeedReverse(w: Watcher)
      modifies this`rfeeds
      ensures rfeeds == old(rfeeds) + [w]
    {
      rfeeds := rfeeds + [w];
    }

    /** feed_reverse_done: feeds what was collected, the last one first. */
    method FeedReverseDone(revents: Mask)
      requires Valid() && rfeeds != [] && forall i :: 0 <= i < |rfeeds| ==> rfeeds[i] in ws
      modifies this`pendings, this`log, this`rfeeds, rfeeds`pending
      ensures Valid() && rfeeds == [] && log == FedFrom(old(log), old(rfeeds), 0, revents)
      ensures Shape() == old(Shape()).FeedFrom(old(rfeeds), 0)
    {
      ghost var all, l, was, n := rfeeds, Shape(), log, |rfeeds|;
      while true
        invariant 0 < n == |rfeeds| && rfeeds == all[..n]
        invariant Valid() && log == FedFrom(was, all, n, revents) && Shape() == l.FeedFrom(all, n)
        decreases n
      {
        n := n - 1;
        FeedLast(all, n, l, was, revents);
        if rfeeds == [] {
          break;
        }
      }
    }

    /** The guarded call at the end of the reify functions. */
    method FeedCollected(revents: Mask)
      requires Valid() && forall i :: 0 <= i < |rfeeds| ==> rfeeds[i] in ws
      modifies this`pendings, this`log, this`rfeeds, ws`pending
      ensures Valid() && rfeeds == [] && log == FedFrom(old(log), old(rfeeds), 0, revents)
      ensures Shape() == old(Shape()).FeedFrom(old(rfeeds), 0)
    {
      if rfeeds != [] {
        FeedReverseDone(revents);
      }
    }

    /** One turn of its loop, after which the watchers from place n on are fed. */
    method FeedLast(ghost all: seq<Watcher>, ghost n: nat, ghost l: Layout, ghost was: seq<Entry>, revents: Mask)
      requires Valid() && n < |all| && rfeeds == all[..n + 1] && forall i :: 0 <= i < |all| ==> all[i] in ws
      requires |l.lengths| == NUMPRI && l.slots.Keys == ws
      requires log == FedFrom(was, all, n + 1, revents) && Shape() == l.FeedFrom(all, n + 1)
      modifies this`pendings, this`log, this`rfeeds, all`pending
      ensures Valid() && rfeeds == all[..n]
      ensures log == FedFrom(was, all, n, revents) && Shape() == l.FeedFrom(all, n)
    {
      RowsOk();
      FeedOneMore(l, was, all, n, revents);
      hide Valid, Shape, Layout.Feed, Layout.FeedFrom, FedFrom;
      var w := rfeeds[|rfeeds| - 1];
      rfeeds := rfeeds[..|rfeeds| - 1];
      assert w == all[n] && rfeeds == all[..n] && Shape() == l.FeedFrom(all, n + 1);
      FeedEvent(w, revents);
    }
  }
}
