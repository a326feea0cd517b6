/** The message queue between threads, one memory access at a time: a mutex, a
    semaphore, and a list that is linked from its head through `prev`. */
module MessageQueue {
  import opened Sequences
  import opened Options

  type Message = nat

  /** Where a call is: about to ... */
  datatype Phase =
    // x_queue_queue_tail
    | Entering(m: Message)           // enter the mutex
    | TestingTail(m: Message)        // test whether there is a tail
    | SettingTail(m: Message)        // set the tail of an empty list
    | SettingHead(m: Message)        // set its head
    | SettingPrev(m: Message)        // set prev of the tail
    | MovingTail(m: Message)         // set the tail
    | Counting                       // increment qlen
    | Leaving                        // exit the mutex
    | Posting                        // post the semaphore
    | Queued                         // done
    // x_queue_dequeue_head
    | Waiting                        // wait for the semaphore
    | TestingLen                     // test qlen, outside of the mutex
    | Claiming                       // enter the mutex
    | Comparing                      // compare head and tail
    | TakingOnly                     // read the head of a list of one
    | ClearingHead(ret: Option<Message>) // clear the head
    | ClearingTail(ret: Option<Message>) // clear the tail
    | TakingHead                     // read the head of a longer list
    | Advancing(ret: Option<Message>) // set the head to its prev
    | Releasing(ret: Option<Message>) // exit the mutex
    | Returned(ret: Option<Message>) // done
    | Crashed                        // read through a null pointer

  /** By a call. */
  datatype Taken = Taken(id: nat, m: Message)

  /** The history variables: all messages ever linked, and all taken, in order. */
  datatype State = State(head: Option<Message>, tail: Option<Message>, prev: map<Message, Message>, qlen: nat, sem: nat,
                         owner: Option<nat>, calls: map<nat, Phase>, linked: seq<Message>, taken: seq<Taken>)
  {
    function At(id: nat, p: Phase): (s: State) {
      this.(calls := calls[id := p])
    }

    function Prev(m: Option<Message>): (r: Option<Message>) {
      if m.Some? && m.value in prev then Some(prev[m.value]) else None
    }
  }

  const INIT := State(None, None, map[], 0, 0, None, map[], [], [])

  // ---------- the steps ----------

  datatype Step = Enqueue(id: nat, m: Message) | Dequeue(id: nat) | Move(id: nat)

  /** The next access of a call of x_queue_queue_tail. */
  function TailStep(s: State, id: nat): (t: State)
    requires id in s.calls
  {
    match s.calls[id]
    case Entering(m) => s.At(id, TestingTail(m)).(owner := Some(id))
    case TestingTail(m) => s.At(id, if s.tail.None? then SettingTail(m) else SettingPrev(m))
    case SettingTail(m) => s.At(id, SettingHead(m)).(tail := Some(m))
    case SettingHead(m) => s.At(id, Counting).(head := Some(m), linked := s.linked + [m])
    case SettingPrev(m) =>
      if s.tail.None? then s.At(id, Crashed) else s.At(id, MovingTail(m)).(prev := s.prev[s.tail.value := m])
    case MovingTail(m) => s.At(id, Counting).(tail := Some(m), linked := s.linked + [m])
    case Counting => s.At(id, Leaving).(qlen := s.qlen + 1)
    case Leaving => s.At(id, Posting).(owner := None)
    case Posting => s.At(id, Queued).(sem := s.sem + 1)
    case _ => s
  }

  /** The next access of a call of x_queue_dequeue_head. */
  function HeadStep(s: State, id: nat): (t: State)
    requires id in s.calls
  {
    match s.calls[id]
    case Waiting => if s.sem > 0 then s.At(id, TestingLen).(sem := s.sem - 1) else s
    case TestingLen => s.At(id, if s.qlen == 0 then Returned(None) else Claiming)
    case Claiming => s.At(id, Comparing).(owner := Some(id))
    case Comparing => s.At(id, if s.tail == s.head then TakingOnly else TakingHead)
    case TakingOnly => s.At(id, ClearingHead(s.head))
    case ClearingHead(r) => Unlinked(s.At(id, ClearingTail(r)).(head := None), id, r)
    case ClearingTail(r) => s.At(id, Releasing(r)).(tail := None)
    case TakingHead => s.At(id, Advancing(s.head))
    case Advancing(r) =>
      if s.head.None? then s.At(id, Crashed) else Unlinked(s.At(id, Releasing(r)).(head := s.Prev(s.head)), id, r)
    case Releasing(r) => s.At(id, Returned(r)).(owner := None)
    case _ => s
  }

  function Unlinked(s: State, id: nat, r: Option<Message>): (t: State) {
    if r.Some? then s.(taken := s.taken + [Taken(id, r.value)]) else s
  }

  predicate Producing(p: Phase) {
    p.Entering? || p.TestingTail? || p.SettingTail? || p.SettingHead? || p.SettingPrev? || p.MovingTail? || p.Counting?
    || p.Leaving? || p.Posting? || p.Queued?
  }

  /** The message of a call that has not linked it yet. */
  function Carried(p: Phase): (m: Option<Message>) {
    match p
    case Entering(m) => Some(m)
    case TestingTail(m) => Some(m)
    case SettingTail(m) => Some(m)
    case SettingHead(m) => Some(m)
    case SettingPrev(m) => Some(m)
    case MovingTail(m) => Some(m)
    case _ => None
  }

  function List(s: State): (l: seq<Message>) {
    if |s.taken| <= |s.linked| then s.linked[|s.taken|..] else []
  }

  /** A call enqueues a message that is neither in the list nor being enqueued
      by another call; a step waits for the mutex and for the semaphore. */
  ghost predicate Enabled(s: State, step: Step) {
    match step
    case Enqueue(id, m) => id !in s.calls && m !in List(s) && forall x :: x in s.calls ==> Carried(s.calls[x]) != Some(m)
    case Dequeue(id) => id !in s.calls
    case Move(id) =>
      && id in s.calls
      && (s.calls[id].Entering? || s.calls[id].Claiming? ==> s.owner.None?)
      && (s.calls[id].Waiting? ==> s.sem > 0)
  }

  ghost function Next(s: State, step: Step): (t: State)
    requires Enabled(s, step)
  {
    match step
    case Enqueue(id, m) => s.At(id, Entering(m))
    case Dequeue(id) => s.At(id, Waiting)
    case Move(id) => if Producing(s.calls[id]) then TailStep(s, id) else HeadStep(s, id)
  }

  ghost predicate Reaches(s: State, run: seq<Step>, t: State)
    decreases |run|
  {
    if run == [] then t == s else Enabled(s, run[0]) && Reaches(Next(s, run[0]), run[1..], t)
  }

  // ---------- the invariant ----------

  /** Inside the mutex. */
  predicate Owning(p: Phase) {
    match p
    case TestingTail(_) => true
    case SettingTail(_) => true
    case SettingHead(_) => true
    case SettingPrev(_) => true
    case MovingTail(_) => true
    case Counting => true
    case Leaving => true
    case Comparing => true
    case TakingOnly => true
    case ClearingHead(_) => true
    case ClearingTail(_) => true
    case TakingHead => true
    case Advancing(_) => true
    case Releasing(_) => true
    case Crashed => true
    case _ => false
  }

  /** At most one call is inside the mutex. */
  ghost predicate OwnerOk(s: State) {
    forall id :: id in s.calls && Owning(s.calls[id]) <==> s.owner == Some(id)
  }

  ghost predicate HistoryOk(s: State) {
    |s.taken| <= |s.linked| && forall i :: 0 <= i < |s.taken| ==> s.taken[i].m == s.linked[i]
  }

  /** The list is linked through prev. */
  ghost predicate Links(prev: map<Message, Message>, l: seq<Message>) {
    Distinct(l) && forall i :: 0 <= i < |l| - 1 ==> l[i] in prev && prev[l[i]] == l[i + 1]
  }

  ghost predicate Ends(s: State, l: seq<Message>) {
    if l == [] then s.head.None? && s.tail.None? else s.head == Some(l[0]) && s.tail == Some(l[|l| - 1])
  }

  /** The list as the call inside the mutex has left it. */
  ghost predicate ListOk(s: State, p: Phase) {
    var l := List(s);
    Links(s.prev, l) &&
    match p
    case SettingTail(m) => l == [] && Ends(s, l)
    case SettingHead(m) => l == [] && s.head.None? && s.tail == Some(m)
    case SettingPrev(m) => l != [] && Ends(s, l)
    case MovingTail(m) => l != [] && Ends(s, l) && l[|l| - 1] in s.prev && s.prev[l[|l| - 1]] == m
    case TakingOnly => |l| == 1 && Ends(s, l)
    case ClearingHead(r) => |l| == 1 && Ends(s, l) && r == Some(l[0])
    case ClearingTail(r) => l == [] && s.head.None? && r.Some?
    case TakingHead => |l| > 1 && Ends(s, l)
    case Advancing(r) => |l| > 1 && Ends(s, l) && r == Some(l[0])
    case _ => Ends(s, l)
  }

  /** The phase of the owner; any phase outside will do if there is none. */
  ghost function OwnerPhase(s: State): (p: Phase) {
    if s.owner.Some? && s.owner.value in s.calls then s.calls[s.owner.value] else Queued
  }

  /** Kinds of calls that are counted. */
  datatype Kind = PastWait | Unposted | Uncounted

  predicate Is(k: Kind, p: Phase) {
    match k
    case PastWait => p.TestingLen? || p.Claiming? || p.Comparing? || p.TakingOnly? || p.ClearingHead? || p.TakingHead? || p.Advancing?
    case Unposted => p.Counting? || p.Leaving? || p.Posting?
    case Uncounted => p.Counting?
  }

  ghost function Those(calls: map<nat, Phase>, k: Kind): (r: set<nat>) {
    set id | id in calls && Is(k, calls[id])
  }

  ghost predicate CountsOk(s: State) {
    && |List(s)| == s.sem + |Those(s.calls, PastWait)| + |Those(s.calls, Unposted)|
    && |s.linked| == s.qlen + |Those(s.calls, Uncounted)|
  }

  /** Messages on their way into the list are not there yet. */
  ghost predicate CarriedOk(s: State) {
    && (forall x :: x in s.calls && Carried(s.calls[x]).Some? ==> Carried(s.calls[x]).value !in List(s))
    && forall x, y :: x in s.calls && y in s.calls && x != y && Carried(s.calls[x]).Some? ==>
                        Carried(s.calls[y]) != Carried(s.calls[x])
  }

  /** The call has unlinked its message. */
  function Got(p: Phase): (r: Option<Option<Message>>) {
    match p
    case ClearingTail(r) => Some(r)
    case Releasing(r) => Some(r)
    case Returned(r) => Some(r)
    case _ => None
  }

  /** Calls and taken messages correspond one to one. */
  ghost predicate GotOk(s: State) {
    && (forall i, j :: 0 <= i < j < |s.taken| ==> s.taken[i].id != s.taken[j].id)
    && (forall i :: 0 <= i < |s.taken| ==>
                      s.taken[i].id in s.calls && Got(s.calls[s.taken[i].id]) == Some(Some(s.taken[i].m)))
    && forall x :: x in s.calls && Got(s.calls[x]).Some? ==>
                     Got(s.calls[x]).value.Some? && Taken(x, Got(s.calls[x]).value.value) in s.taken
  }

  ghost predicate NoCrash(s: State) {
    forall x :: x in s.calls ==> !s.calls[x].Crashed?
  }

  ghost predicate Inv(s: State) {
    OwnerOk(s) && HistoryOk(s) && ListOk(s, OwnerPhase(s)) && CountsOk(s) && CarriedOk(s) && GotOk(s) && NoCrash(s)
  }

  // ---------- every step keeps it ----------

  lemma OwnerMoved(s: State, t: State, id: nat, q: Phase)
    requires OwnerOk(s) && id in s.calls && t.calls == s.calls[id := q] && (Owning(q) <==> t.owner == Some(id))
    requires t.owner == s.owner || (s.owner == None && t.owner == Some(id)) || (s.owner == Some(id) && t.owner == None)
    ensures OwnerOk(t)
  {
    hide Owning;
  }

  lemma TailKeepsOwner(s: State, id: nat)
    requires id in s.calls && Producing(s.calls[id]) && OwnerOk(s) && (s.calls[id].Entering? ==> s.owner.None?)
    ensures OwnerOk(TailStep(s, id))
  {
    var t := TailStep(s, id);
    if t != s {
      assert Owning(s.calls[id]) <==> s.owner == Some(id);
      hide OwnerOk;
      OwnerMoved(s, t, id, t.calls[id]);
    }
  }

  lemma HeadKeepsOwner(s: State, id: nat)
    requires id in s.calls && !Producing(s.calls[id]) && OwnerOk(s) && (s.calls[id].Claiming? ==> s.owner.None?)
    ensures OwnerOk(HeadStep(s, id))
  {
    var t := HeadStep(s, id);
    if t != s {
      assert Owning(s.calls[id]) <==> s.owner == Some(id);
      hide OwnerOk;
      OwnerMoved(s, t, id, t.calls[id]);
    }
  }

  lemma KeepsOwner(s: State, step: Step)
    requires Enabled(s, step) && OwnerOk(s)
    ensures OwnerOk(Next(s, step))
  {
    hide List;
    if step.Move? {
      hide OwnerOk, TailStep, HeadStep;
      if Producing(s.calls[step.id]) {
        TailKeepsOwner(s, step.id);
      } else {
        HeadKeepsOwner(s, step.id);
      }
    }
  }

  lemma CountMoved(calls: map<nat, Phase>, id: nat, p: Phase, k: Kind)
    ensures |Those(calls[id := p], k)| ==
            |Those(calls, k)| - (if id in calls && Is(k, calls[id]) then 1 else 0) + (if Is(k, p) then 1 else 0)
  {
    hide Is;
    var a, b := Those(calls, k), Those(calls[id := p], k);
    if Is(k, p) {
      assert b == a + {id};
    } else {
      assert b == a - {id};
    }
  }

  lemma SameList(s: State, t: State)
    requires t.linked == s.linked && t.taken == s.taken
    ensures List(t) == List(s)
  {
  }

  /** The list after a message is linked, and after one is unlinked. */
  lemma LinkedList(s: State, t: State, m: Message)
    requires HistoryOk(s) && t.linked == s.linked + [m] && t.taken == s.taken
    ensures List(t) == List(s) + [m] && HistoryOk(t)
  {
  }

  lemma TakenList(s: State, t: State, x: Taken)
    requires HistoryOk(s) && List(s) != [] && x.m == List(s)[0] && t.linked == s.linked && t.taken == s.taken + [x]
    ensures List(t) == List(s)[1..] && HistoryOk(t)
  {
  }

  /** How the lengths change when the list does. */
  ghost predicate Grown(s: State, t: State, linked: nat, taken: nat) {
    && HistoryOk(t) && |t.linked| == |s.linked| + linked && |t.taken| == |s.taken| + taken
    && |List(t)| == |List(s)| + linked - taken
  }

  /** What a phase adds to a count. */
  function One(k: Kind, p: Phase): (n: nat) {
    if Is(k, p) then 1 else 0
  }

  lemma CountsMoved(s: State, t: State, id: nat, p: Phase, q: Phase, linked: nat, taken: nat)
    requires CountsOk(s) && id in s.calls && s.calls[id] == p && t.calls == s.calls[id := q] && Grown(s, t, linked, taken)
    requires linked - taken == t.sem - s.sem + One(PastWait, q) - One(PastWait, p) + One(Unposted, q) - One(Unposted, p)
    requires linked == t.qlen - s.qlen + One(Uncounted, q) - One(Uncounted, p)
    ensures CountsOk(t)
  {
    hide Those, List;
    CountMoved(s.calls, id, q, PastWait);
    CountMoved(s.calls, id, q, Unposted);
    CountMoved(s.calls, id, q, Uncounted);
  }

  lemma CountsEntered(s: State, id: nat, p: Phase)
    requires CountsOk(s) && id !in s.calls && forall k: Kind :: !Is(k, p)
    ensures CountsOk(s.At(id, p))
  {
    hide Those, List, Is;
    CountMoved(s.calls, id, p, PastWait);
    CountMoved(s.calls, id, p, Unposted);
    CountMoved(s.calls, id, p, Uncounted);
    assert List(s.At(id, p)) == List(s) by {
      SameList(s, s.At(id, p));
    }
  }

  /** A call past the semaphore has a message waiting for it, and a counted one. */
  lemma PastIsSafe(s: State, id: nat)
    requires CountsOk(s) && HistoryOk(s) && id in s.calls && Is(PastWait, s.calls[id])
    ensures List(s) != [] && s.qlen > 0
  {
    var past, unposted, uncounted := Those(s.calls, PastWait), Those(s.calls, Unposted), Those(s.calls, Uncounted);
    assert id in past && uncounted <= unposted;
    Fewer({id}, past);
    Fewer(uncounted, unposted);
  }

  lemma {:induction false} Fewer<T>(a: set<T>, b: set<T>)
    requires a <= b
    ensures |a| <= |b|
    decreases |a|
  {
    if x :| x in a {
      Fewer(a - {x}, b - {x});
    }
  }

  /** What a step may rely on. */
  lemma MoveIsSafe(s: State, id: nat)
    requires Inv(s) && id in s.calls
    ensures Owning(s.calls[id]) ==> s.owner == Some(id) && ListOk(s, s.calls[id])
    ensures Is(PastWait, s.calls[id]) ==> List(s) != [] && s.qlen > 0
    ensures !s.calls[id].Crashed?
  {
    hide CountsOk, Links, CarriedOk, GotOk, Owning, ListOk, Is, List;
    if Is(PastWait, s.calls[id]) {
      PastIsSafe(s, id);
    }
  }

  lemma TailKeepsCounts(s: State, id: nat)
    requires id in s.calls && Producing(s.calls[id]) && CountsOk(s) && HistoryOk(s)
    requires Owning(s.calls[id]) ==> ListOk(s, s.calls[id])
    ensures HistoryOk(TailStep(s, id)) && CountsOk(TailStep(s, id))
  {
    hide CountsOk, Links, Those, List;
    var p, t := s.calls[id], TailStep(s, id);
    if p.SettingHead? || p.MovingTail? {
      LinkedList(s, t, p.m);
      CountsMoved(s, t, id, p, t.calls[id], 1, 0);
    } else if p.Queued? {
      SameCounts(s, t);
    } else {
      SameList(s, t);
      CountsMoved(s, t, id, p, t.calls[id], 0, 0);
    }
  }

  lemma SameCounts(s: State, t: State)
    requires CountsOk(s) && t == s
    ensures CountsOk(t)
  {
  }

  lemma UnlinkKeepsCounts(s: State, id: nat)
    requires id in s.calls && (s.calls[id].ClearingHead? || s.calls[id].Advancing?) && CountsOk(s) && HistoryOk(s)
    requires ListOk(s, s.calls[id])
    ensures HistoryOk(HeadStep(s, id)) && CountsOk(HeadStep(s, id))
  {
    hide CountsOk, Links, Those, List;
    var p, t := s.calls[id], HeadStep(s, id);
    TakenList(s, t, Taken(id, p.ret.value));
    CountsMoved(s, t, id, p, t.calls[id], 0, 1);
  }

  lemma HeadKeepsCounts(s: State, id: nat)
    requires id in s.calls && !Producing(s.calls[id]) && CountsOk(s) && HistoryOk(s)
    requires !s.calls[id].ClearingHead? && !s.calls[id].Advancing?
    requires Is(PastWait, s.calls[id]) ==> s.qlen > 0
    ensures HistoryOk(HeadStep(s, id)) && CountsOk(HeadStep(s, id))
  {
    hide CountsOk, Those, List;
    var p, t := s.calls[id], HeadStep(s, id);
    if t == s {
      SameCounts(s, t);
    } else {
      SameList(s, t);
      CountsMoved(s, t, id, p, t.calls[id], 0, 0);
    }
  }

  lemma LinkPrev(prev: map<Message, Message>, l: seq<Message>, m: Message)
    requires Links(prev, l) && l != []
    ensures Links(prev[l[|l| - 1] := m], l)
  {
  }

  lemma LinkAppended(prev: map<Message, Message>, l: seq<Message>, m: Message)
    requires Links(prev, l) && m !in l && (l != [] ==> l[|l| - 1] in prev && prev[l[|l| - 1]] == m)
    ensures Links(prev, l + [m])
  {
  }

  lemma LinkPopped(prev: map<Message, Message>, l: seq<Message>)
    requires Links(prev, l) && l != []
    ensures Links(prev, l[1..]) && (|l| > 1 ==> l[0] in prev && prev[l[0]] == l[1] != l[0])
  {
  }

  /** A step inside the mutex, or into or out of it, keeps the list in order. */
  lemma LinkKeepsList(s: State, id: nat)
    requires id in s.calls && HistoryOk(s) && (s.calls[id].SettingHead? || s.calls[id].MovingTail?)
    requires ListOk(s, s.calls[id]) && s.calls[id].m !in List(s)
    ensures ListOk(TailStep(s, id), TailStep(s, id).calls[id])
  {
    hide Links, List;
    var m := s.calls[id].m;
    LinkAppended(s.prev, List(s), m);
    LinkedList(s, TailStep(s, id), m);
  }

  lemma TailKeepsList(s: State, id: nat)
    requires id in s.calls && HistoryOk(s)
    requires Owning(s.calls[id]) ==> ListOk(s, s.calls[id])
    requires s.calls[id].Entering? ==> ListOk(s, Queued)
    requires s.calls[id].TestingTail? || s.calls[id].SettingTail? || s.calls[id].SettingPrev? || s.calls[id].Counting?
             || s.calls[id].Leaving? || s.calls[id].Entering?
    ensures ListOk(TailStep(s, id), TailStep(s, id).calls[id])
  {
    hide Links, List;
    var p := s.calls[id];
    SameList(s, TailStep(s, id));
    if p.SettingPrev? {
      LinkPrev(s.prev, List(s), p.m);
    }
  }

  lemma HeadKeepsList(s: State, id: nat)
    requires id in s.calls && HistoryOk(s) && !Producing(s.calls[id])
    requires Owning(s.calls[id]) ==> ListOk(s, s.calls[id])
    requires s.calls[id].Claiming? ==> ListOk(s, Queued)
    requires Is(PastWait, s.calls[id]) ==> List(s) != []
    requires Owning(s.calls[id]) || s.calls[id].Claiming?
    ensures ListOk(HeadStep(s, id), HeadStep(s, id).calls[id])
  {
    hide Links, List;
    var p, l := s.calls[id], List(s);
    if p.ClearingHead? || p.Advancing? {
      TakenList(s, HeadStep(s, id), Taken(id, p.ret.value));
      LinkPopped(s.prev, l);
    } else {
      SameList(s, HeadStep(s, id));
      if p.Comparing? {
        LastIsFirst(s.prev, l);
      }
    }
  }

  lemma LastIsFirst(prev: map<Message, Message>, l: seq<Message>)
    requires Links(prev, l) && l != []
    ensures l[|l| - 1] == l[0] <==> |l| == 1
  {
  }

  /** Steps of calls outside of the mutex leave the list alone. */
  lemma OutsideKeepsList(s: State, step: Step)
    requires Enabled(s, step) && HistoryOk(s) && OwnerOk(s) && ListOk(s, OwnerPhase(s))
    requires step.Move? ==> !Owning(s.calls[step.id]) && !s.calls[step.id].Entering? && !s.calls[step.id].Claiming?
    ensures ListOk(Next(s, step), OwnerPhase(Next(s, step)))
  {
    hide Links, List;
    var t := Next(s, step);
    SameList(s, t);
    assert t.linked == s.linked && t.taken == s.taken && t.head == s.head && t.tail == s.tail && t.prev == s.prev;
    assert OwnerPhase(t) == OwnerPhase(s) || (t.owner.None? && s.owner.None?);
  }

  lemma KeepsList(s: State, step: Step)
    requires Enabled(s, step) && Inv(s)
    ensures ListOk(Next(s, step), OwnerPhase(Next(s, step)))
  {
    hide CountsOk, Links, GotOk, ListOk, List;
    if step.Move? && (Owning(s.calls[step.id]) || s.calls[step.id].Entering? || s.calls[step.id].Claiming?) {
      MoveIsSafe(s, step.id);
      Inside(s, step.id);
      if s.calls[step.id].SettingHead? || s.calls[step.id].MovingTail? {
        LinkKeepsList(s, step.id);
      } else if Producing(s.calls[step.id]) {
        TailKeepsList(s, step.id);
      } else {
        HeadKeepsList(s, step.id);
      }
    } else {
      OutsideKeepsList(s, step);
    }
  }

  /** Around a step inside the mutex the list is the stepping call's business. */
  lemma Inside(s: State, id: nat)
    requires Enabled(s, Move(id)) && Inv(s)
    requires Owning(s.calls[id]) || s.calls[id].Entering? || s.calls[id].Claiming?
    ensures s.calls[id].Entering? || s.calls[id].Claiming? ==> ListOk(s, Queued)
    ensures var t := Next(s, Move(id));
      ListOk(t, t.calls[id]) ==> ListOk(t, OwnerPhase(t))
  {
    hide CountsOk, Links, GotOk, List;
  }

  /** How a move changes the list. */
  ghost predicate Effect(s: State, t: State, id: nat)
    requires id in s.calls && id in t.calls
  {
    var c, d := Carried(s.calls[id]), Carried(t.calls[id]);
    || (List(t) == List(s) && (d == c || d.None?))
    || (List(s) != [] && List(t) == List(s)[1..] && d.None?)
    || (c.Some? && d.None? && List(t) == List(s) + [c.value])
  }

  lemma TailEffect(s: State, id: nat)
    requires id in s.calls && Producing(s.calls[id]) && HistoryOk(s)
    ensures TailStep(s, id).calls.Keys == s.calls.Keys && Effect(s, TailStep(s, id), id)
  {
    hide List;
    var p, t := s.calls[id], TailStep(s, id);
    if p.SettingHead? || p.MovingTail? {
      LinkedList(s, t, p.m);
    } else {
      SameList(s, t);
    }
  }

  lemma HeadEffect(s: State, id: nat)
    requires id in s.calls && !Producing(s.calls[id]) && HistoryOk(s)
    requires s.calls[id].ClearingHead? || s.calls[id].Advancing? ==>
      List(s) != [] && s.calls[id].ret == Some(List(s)[0]) && s.head.Some?
    ensures HeadStep(s, id).calls.Keys == s.calls.Keys && Effect(s, HeadStep(s, id), id)
  {
    hide List, HistoryOk;
    var p, t := s.calls[id], HeadStep(s, id);
    if p.ClearingHead? || p.Advancing? {
      TakenList(s, t, Taken(id, p.ret.value));
    } else {
      SameList(s, t);
    }
  }

  lemma MoveEffect(s: State, id: nat)
    requires Enabled(s, Move(id)) && Inv(s)
    ensures var t := Next(s, Move(id)); t.calls.Keys == s.calls.Keys && Effect(s, t, id)
  {
    hide Effect, TailStep, HeadStep, Owning, CountsOk, Links, GotOk, OwnerOk, CarriedOk, List, ListOk;
    if s.calls[id].ClearingHead? || s.calls[id].Advancing? {
      GotFirst(s, id);
    }
    if Producing(s.calls[id]) {
      TailEffect(s, id);
    } else {
      HeadEffect(s, id);
    }
  }

  /** A call about to unlink a message has one. */
  lemma GotFirst(s: State, id: nat)
    requires Inv(s) && id in s.calls && (s.calls[id].ClearingHead? || s.calls[id].Advancing?)
    ensures List(s) != [] && s.calls[id].ret == Some(List(s)[0]) && s.head.Some?
  {
    hide CountsOk, Links, GotOk, CarriedOk, List;
    MoveIsSafe(s, id);
  }

  lemma EffectKeepsCarried(s: State, t: State, id: nat)
    requires id in s.calls && CarriedOk(s) && t.calls.Keys == s.calls.Keys && Effect(s, t, id)
    requires t.calls == s.calls[id := t.calls[id]]
    ensures CarriedOk(t)
  {
    hide Carried, List;
  }

  lemma KeepsCarried(s: State, step: Step)
    requires Enabled(s, step) && Inv(s)
    ensures CarriedOk(Next(s, step))
  {
    if step.Move? {
      hide Effect, Next, CarriedOk, OwnerOk, HistoryOk, ListOk, CountsOk, GotOk;
      MoveEffect(s, step.id);
      MoveGets(s, step.id);
      EffectKeepsCarried(s, Next(s, step), step.id);
    } else {
      hide CountsOk, Links, GotOk, OwnerOk, Ends;
      assert List(Next(s, step)) == List(s);
    }
  }

  /** A call gets its message when it takes it. */
  ghost predicate GotEffect(s: State, t: State, id: nat)
    requires id in s.calls && id in t.calls
  {
    var g, h := Got(s.calls[id]), Got(t.calls[id]);
    || (t.taken == s.taken && h == g)
    || (g.None? && h.Some? && h.value.Some? && t.taken == s.taken + [Taken(id, h.value.value)])
  }

  lemma TailGets(s: State, id: nat)
    requires id in s.calls && Producing(s.calls[id]) && (s.calls[id].SettingPrev? ==> s.tail.Some?)
    ensures var t := TailStep(s, id);
      t.calls.Keys == s.calls.Keys && t.calls == s.calls[id := t.calls[id]] && GotEffect(s, t, id) && !t.calls[id].Crashed?
  {
  }

  lemma HeadGets(s: State, id: nat)
    requires id in s.calls && !Producing(s.calls[id]) && !s.calls[id].Crashed? && (s.calls[id].TestingLen? ==> s.qlen > 0)
    requires s.calls[id].ClearingHead? || s.calls[id].Advancing? ==> s.calls[id].ret.Some? && s.head.Some?
    ensures var t := HeadStep(s, id);
      t.calls.Keys == s.calls.Keys && t.calls == s.calls[id := t.calls[id]] && GotEffect(s, t, id) && !t.calls[id].Crashed?
  {
  }

  lemma MoveGets(s: State, id: nat)
    requires Enabled(s, Move(id)) && Inv(s)
    ensures var t := Next(s, Move(id));
      t.calls.Keys == s.calls.Keys && t.calls == s.calls[id := t.calls[id]] && GotEffect(s, t, id) && !t.calls[id].Crashed?
  {
    hide Inv, GotEffect, TailStep, HeadStep, Owning;
    MoveIsSafe(s, id);
    if s.calls[id].ClearingHead? || s.calls[id].Advancing? {
      GotFirst(s, id);
    } else if s.calls[id].SettingPrev? {
      TailThere(s, id);
    }
    if Producing(s.calls[id]) {
      TailGets(s, id);
    } else {
      HeadGets(s, id);
    }
  }

  lemma TailThere(s: State, id: nat)
    requires Inv(s) && id in s.calls && s.calls[id].SettingPrev?
    ensures s.tail.Some?
  {
    hide CountsOk, Links, GotOk, CarriedOk, List;
    MoveIsSafe(s, id);
  }

  lemma EffectKeepsGot(s: State, t: State, id: nat)
    requires id in s.calls && GotOk(s) && t.calls.Keys == s.calls.Keys && t.calls == s.calls[id := t.calls[id]]
    requires GotEffect(s, t, id)
    ensures GotOk(t)
  {
    hide Got;
    assert forall x :: x in s.taken ==> x in t.taken;
  }

  lemma KeepsGot(s: State, step: Step)
    requires Enabled(s, step) && Inv(s)
    ensures GotOk(Next(s, step)) && NoCrash(Next(s, step))
  {
    if step.Move? {
      hide Next, GotOk, GotEffect, CountsOk, CarriedOk, OwnerOk, ListOk, HistoryOk;
      MoveGets(s, step.id);
      EffectKeepsGot(s, Next(s, step), step.id);
    } else {
      hide CountsOk, CarriedOk, OwnerOk, ListOk, HistoryOk;
      assert Next(s, step).taken == s.taken;
    }
  }

  lemma StepKeeps(s: State, step: Step)
    requires Enabled(s, step) && Inv(s)
    ensures Inv(Next(s, step))
  {
    hide OwnerOk, ListOk, CountsOk, CarriedOk, GotOk, NoCrash, Next, HistoryOk;
    KeepsOwner(s, step);
    KeepsCounts(s, step);
    KeepsList(s, step);
    KeepsCarried(s, step);
    KeepsGot(s, step);
  }

  lemma KeepsCounts(s: State, step: Step)
    requires Enabled(s, step) && Inv(s)
    ensures HistoryOk(Next(s, step)) && CountsOk(Next(s, step))
  {
    hide ListOk, GotOk, CarriedOk, OwnerOk, CountsOk;
    if step.Move? {
      MoveIsSafe(s, step.id);
      if Producing(s.calls[step.id]) {
        TailKeepsCounts(s, step.id);
      } else if s.calls[step.id].ClearingHead? || s.calls[step.id].Advancing? {
        UnlinkKeepsCounts(s, step.id);
      } else {
        HeadKeepsCounts(s, step.id);
      }
    } else {
      CountsEntered(s, step.id, Next(s, step).calls[step.id]);
    }
  }

  lemma InitOk()
    ensures Inv(INIT)
  {
    assert Those(map[], PastWait) == {} && Those(map[], Unposted) == {} && Those(map[], Uncounted) == {};
  }

  lemma {:induction false} RunKeeps(s: State, run: seq<Step>, t: State)
    requires Inv(s) && Reaches(s, run, t)
    ensures Inv(t)
    decreases |run|
  {
    hide Inv, Next, Enabled;
    if run != [] {
      StepKeeps(s, run[0]);
      RunKeeps(Next(s, run[0]), run[1..], t);
    }
  }

  // ---------- what holds in every run ----------

  ghost function Messages(taken: seq<Taken>): (ms: seq<Message>)
    ensures |ms| == |taken| && forall i :: 0 <= i < |taken| ==> ms[i] == taken[i].m
  {
    seq(|taken|, i requires 0 <= i < |taken| => taken[i].m)
  }

  /** The list as the fields of the queue have it, walked from a message on. */
  ghost function Walk(prev: map<Message, Message>, from: Message, n: nat): (l: seq<Message>)
    decreases n
  {
    if n == 0 then [from] else [from] + if from in prev then Walk(prev, prev[from], n - 1) else []
  }

  lemma {:induction false} WalkIs(prev: map<Message, Message>, l: seq<Message>)
    requires Links(prev, l) && l != []
    ensures Walk(prev, l[0], |l| - 1) == l
    decreases |l|
  {
    if |l| > 1 {
      LinkPopped(prev, l);
      WalkIs(prev, l[1..]);
    }
  }

  lemma HistoryIs(s: State)
    requires HistoryOk(s)
    ensures Messages(s.taken) + List(s) == s.linked
  {
    assert s.linked[..|s.taken|] == Messages(s.taken);
  }

  lemma FreeListIs(s: State)
    requires s.owner.None? && ListOk(s, OwnerPhase(s))
    ensures if List(s) == [] then s.head.None? && s.tail.None? else
      s.head.Some? && Walk(s.prev, s.head.value, |List(s)| - 1) == List(s) && s.tail == Some(List(s)[|List(s)| - 1])
  {
    hide Links, List;
    if List(s) != [] {
      WalkIs(s.prev, List(s));
    }
  }

  /** First in, first out: at any time the messages dequeued so far, in the order
      in which they were taken, followed by the list, are the messages enqueued
      so far, in the order in which they were linked.  While the mutex is free
      the list is the one that head, prev and tail describe. */
  lemma Linearised(run: seq<Step>, s: State)
    requires Reaches(INIT, run, s)
    ensures Messages(s.taken) + List(s) == s.linked
    ensures s.owner.None? ==> if List(s) == [] then s.head.None? && s.tail.None? else
      s.head.Some? && Walk(s.prev, s.head.value, |List(s)| - 1) == List(s) && s.tail == Some(List(s)[|List(s)| - 1])
  {
    InitOk();
    RunKeeps(INIT, run, s);
    hide Reaches, HistoryOk, ListOk, CountsOk, CarriedOk, GotOk, OwnerOk;
    HistoryIs(s);
    if s.owner.None? {
      FreeListIs(s);
    }
  }

  /** The list is as long as the semaphore, the calls past its wait that have
      not unlinked a message yet and those that have linked one but not posted
      yet say together. */
  lemma Balanced(run: seq<Step>, s: State)
    requires Reaches(INIT, run, s)
    ensures |List(s)| == s.sem + |Those(s.calls, PastWait)| + |Those(s.calls, Unposted)|
  {
    InitOk();
    RunKeeps(INIT, run, s);
  }

  /** No call reads through a null pointer, and every call of dequeue_head that
      returns gives a message, which it alone has taken. */
  lemma NeverNull(run: seq<Step>, s: State, id: nat)
    requires Reaches(INIT, run, s) && id in s.calls
    ensures !s.calls[id].Crashed?
    ensures s.calls[id].Returned? ==>
      && s.calls[id].ret.Some? && Taken(id, s.calls[id].ret.value) in s.taken
      && forall x :: x in s.taken && x.id == id ==> x.m == s.calls[id].ret.value
  {
    InitOk();
    RunKeeps(INIT, run, s);
    hide Reaches, CountsOk, CarriedOk, OwnerOk, ListOk;
    if s.calls[id].Returned? {
      assert Got(s.calls[id]) == Some(s.calls[id].ret);
    }
  }

  /** No message is left behind: once all calls have returned or wait for the
      semaphore, the list is as long as the semaphore, and empty if one waits
      in vain. */
  lemma Drained(run: seq<Step>, s: State)
    requires Reaches(INIT, run, s)
    requires forall id :: id in s.calls ==> s.calls[id].Queued? || s.calls[id].Returned? || s.calls[id].Waiting?
    ensures |List(s)| == s.sem
    ensures s.sem == 0 ==> Messages(s.taken) == s.linked
  {
    Balanced(run, s);
    Linearised(run, s);
    assert Those(s.calls, PastWait) == {} && Those(s.calls, Unposted) == {};
  }

  // ---------- deadlock ----------

  /** No call can move: each is done or waits in vain. */
  ghost predicate AtRest(s: State) {
    forall id :: id in s.calls ==> s.calls[id].Queued? || s.calls[id].Returned? || (s.calls[id].Waiting? && s.sem == 0)
  }

  /** No deadlock: as long as a call is neither done nor waits in vain, one that
      is not done can move. */
  lemma SomeCallMoves(run: seq<Step>, s: State) returns (id: nat)
    requires Reaches(INIT, run, s) && !AtRest(s)
    ensures Enabled(s, Move(id)) && !s.calls[id].Queued? && !s.calls[id].Returned?
  {
    InitOk();
    RunKeeps(INIT, run, s);
    id :| id in s.calls && !s.calls[id].Queued? && !s.calls[id].Returned? && !(s.calls[id].Waiting? && s.sem == 0);
    if s.owner.Some? {
      id := s.owner.value;
    }
    NeverNull(run, s, id);
  }

  /** The accesses left of a call. */
  function Left(p: Phase): (n: nat) {
    match p
    case Entering(_) => 7
    case TestingTail(_) => 6
    case SettingTail(_) => 5
    case SettingHead(_) => 4
    case SettingPrev(_) => 5
    case MovingTail(_) => 4
    case Counting => 3
    case Leaving => 2
    case Posting => 1
    case Waiting => 8
    case TestingLen => 7
    case Claiming => 6
    case Comparing => 5
    case TakingOnly => 4
    case ClearingHead(_) => 3
    case ClearingTail(_) => 2
    case TakingHead => 3
    case Advancing(_) => 2
    case Releasing(_) => 1
    case _ => 0
  }

  ghost function AnyOf(calls: map<nat, Phase>): (id: nat)
    requires calls != map[]
    ensures id in calls
  {
    var id :| id in calls;
    id
  }

  ghost function AllLeft(calls: map<nat, Phase>): (n: nat)
    decreases |calls|
  {
    if calls == map[] then 0 else Left(calls[AnyOf(calls)]) + AllLeft(calls - {AnyOf(calls)})
  }

  lemma {:induction false} LeftWithout(calls: map<nat, Phase>, id: nat)
    requires id in calls
    ensures AllLeft(calls) == Left(calls[id]) + AllLeft(calls - {id})
    decreases |calls|
  {
    var x := AnyOf(calls);
    if x != id {
      var less := calls - {x};
      LeftWithout(less, id);
      LeftWithout(calls - {id}, x);
      assert less - {id} == calls - {id} - {x};
    }
  }

  lemma TailLeaves(s: State, id: nat)
    requires id in s.calls && Producing(s.calls[id]) && !s.calls[id].Queued?
    ensures var t := TailStep(s, id);
      id in t.calls && t.calls == s.calls[id := t.calls[id]] && Left(t.calls[id]) < Left(s.calls[id])
  {
    assert TailStep(s, id).calls == s.calls[id := TailStep(s, id).calls[id]];
  }

  lemma HeadLeaves(s: State, id: nat)
    requires id in s.calls && !Producing(s.calls[id]) && !s.calls[id].Returned? && !s.calls[id].Crashed?
    requires s.calls[id].Waiting? ==> s.sem > 0
    ensures var t := HeadStep(s, id);
      id in t.calls && t.calls == s.calls[id := t.calls[id]] && Left(t.calls[id]) < Left(s.calls[id])
  {
    assert HeadStep(s, id).calls == s.calls[id := HeadStep(s, id).calls[id]];
  }

  lemma LessLeft(s: State, id: nat)
    requires Enabled(s, Move(id)) && !s.calls[id].Queued? && !s.calls[id].Returned? && !s.calls[id].Crashed?
    ensures AllLeft(Next(s, Move(id)).calls) < AllLeft(s.calls)
  {
    if Producing(s.calls[id]) {
      TailLeaves(s, id);
    } else {
      HeadLeaves(s, id);
    }
    var calls := Next(s, Move(id)).calls;
    hide Next, Enabled, Left, AllLeft;
    LeftWithout(s.calls, id);
    LeftWithout(calls, id);
    assert calls - {id} == s.calls - {id};
  }

  lemma {:induction false} OneMore(s: State, run: seq<Step>, t: State, step: Step)
    requires Reaches(s, run, t) && Enabled(t, step)
    ensures Reaches(s, run + [step], Next(t, step))
    decreases |run|
  {
    hide Next, Enabled;
    if run != [] {
      assert (run + [step])[1..] == run[1..] + [step];
      OneMore(Next(s, run[0]), run[1..], t, step);
    } else {
      assert Reaches(Next(t, step), [step][1..], Next(t, step));
    }
  }

  /** From every reachable state the calls that are inside can come to rest, in
      no more accesses than they have left. */
  lemma {:induction false} RunsToRest(run: seq<Step>, s: State) returns (rest: seq<Step>, t: State)
    requires Reaches(INIT, run, s)
    ensures Reaches(s, rest, t) && AtRest(t)
    ensures |rest| <= AllLeft(s.calls) && forall i :: 0 <= i < |rest| ==> rest[i].Move?
    decreases AllLeft(s.calls)
  {
    if AtRest(s) {
      rest, t := [], s;
    } else {
      var id := SomeCallMoves(run, s);
      NeverNull(run, s, id);
      LessLeft(s, id);
      OneMore(INIT, run, s, Move(id));
      hide Next, Enabled, AtRest, AllLeft;
      var more;
      more, t := RunsToRest(run + [Move(id)], Next(s, Move(id)));
      rest := [Move(id)] + more;
      assert rest[1..] == more;
    }
  }
}
