/** The table of file descriptors: which io watchers each has, and what the
    backend has been told about it.  Changes are only noted when watchers start
    and stop, and told to the backend in one go by fd_reify. */
module FdInterest {
  import opened Sequences
  import opened EventMask
  import opened PollBackend

  /** ev_io; `fdset` is the bit EV__IOFDSET of its mask. */
  class IoWatcher {
    var fd: nat
    var events: Mask
    var fdset: bool
    var active: bool

    constructor (fd: nat, events: Mask)
      ensures this.fd == fd && this.events == events && fdset && !active
    {
      this.fd, this.events, fdset, active := fd, events, true, false;
    }
  }

  datatype Change = AnfdReify | IoFdSet

  /** ANFD */
  datatype Anfd = Anfd(head: seq<IoWatcher>, events: Mask, reify: set<Change>)

  const NO_ANFD := Anfd([], {}, {})

  lemma ConsMembers<T>(x: T, s: seq<T>)
    ensures forall y :: y in [x] + s <==> y == x || y in s
    ensures Distinct(s) && x !in s ==> Distinct([x] + s)
  {
  }

  /** wlist_del: the list without the first occurrence of x. */
  function Without<T(==)>(s: seq<T>, x: T): (r: seq<T>) {
    if s == [] then [] else if s[0] == x then s[1..] else [s[0]] + Without(s[1..], x)
  }

  lemma {:induction false} WithoutAt<T>(s: seq<T>, x: T, i: nat)
    requires i <= |s| && (forall j :: 0 <= j < i ==> s[j] != x) && (i < |s| ==> s[i] == x)
    ensures Without(s, x) == if i < |s| then s[..i] + s[i + 1..] else s
  {
    if i > 0 {
      WithoutAt(s[1..], x, i - 1);
      assert s == [s[0]] + s[1..];
    }
  }

  lemma {:induction false} WithoutMembers<T>(s: seq<T>, x: T)
    requires Distinct(s)
    ensures Distinct(Without(s, x)) && forall y :: y in Without(s, x) <==> y in s && y != x
  {
    if s != [] {
      assert s == [s[0]] + s[1..];
      ConsMembers(s[0], s[1..]);
      if s[0] != x {
        WithoutMembers(s[1..], x);
        ConsMembers(s[0], Without(s[1..], x));
      }
    }
  }

  /** What is watched is what has a mask, for that mask. */
  ghost predicate Mirrored(interest: map<nat, set<PollBit>>, anfds: seq<Anfd>) {
    && (forall fd :: fd in interest ==> fd < |anfds| && anfds[fd].events != {} && interest[fd] == ToPoll(anfds[fd].events))
    && forall fd :: 0 <= fd < |anfds| && anfds[fd].events != {} ==> fd in interest
  }

  /** From index n on, the list names the descriptors to be reified, each once. */
  ghost predicate Noted(anfds: seq<Anfd>, changes: seq<nat>, n: nat) {
    && n <= |changes| && Distinct(changes)
    && (forall i :: n <= i < |changes| ==> changes[i] < |anfds| && anfds[changes[i]].reify != {})
    && forall fd: nat :: fd < |anfds| && anfds[fd].reify != {} ==> fd in changes[n..]
  }

  lemma FirstNoted(anfds: seq<Anfd>, changes: seq<nat>, n: nat)
    requires Noted(anfds, changes, n) && n < |changes|
    ensures changes[n] < |anfds| && anfds[changes[n]].reify != {}
  {
  }

  lemma NextNoted(was: seq<Anfd>, now: seq<Anfd>, changes: seq<nat>, n: nat)
    requires Noted(was, changes, n) && n < |changes| && |now| == |was|
    requires forall fd :: 0 <= fd < |was| ==> now[fd].reify == if fd == changes[n] then {} else was[fd].reify
    ensures Noted(now, changes, n + 1)
  {
    assert changes[n..] == [changes[n]] + changes[n + 1..];
    ConsMembers(changes[n], changes[n + 1..]);
  }

  lemma NoneNoted(anfds: seq<Anfd>, changes: seq<nat>)
    requires Noted(anfds, changes, |changes|)
    ensures Noted(anfds, [], 0)
  {
  }

  lemma MoreNoted(was: seq<Anfd>, now: seq<Anfd>, changes: seq<nat>, fd: nat)
    requires Noted(was, changes, 0) && |now| == |was| && fd < |now| && now[fd].reify != {}
    requires forall x :: 0 <= x < |was| && x != fd ==> now[x].reify == was[x].reify
    ensures Noted(now, if was[fd].reify == {} then changes + [fd] else changes, 0)
  {
    assert changes[0..] == changes && (changes + [fd])[0..] == changes + [fd];
    assert forall x :: x in changes + [fd] <==> x in changes || x == fd;
  }

  /** Lists do not matter to what is noted and what is mirrored. */
  lemma HeadsOnly(was: seq<Anfd>, now: seq<Anfd>, changes: seq<nat>, interest: map<nat, set<PollBit>>)
    requires |now| == |was| && Noted(was, changes, 0) && Mirrored(interest, was)
    requires forall fd :: 0 <= fd < |was| ==> now[fd].reify == was[fd].reify && now[fd].events == was[fd].events
    ensures Noted(now, changes, 0) && Mirrored(interest, now)
  {
  }

  lemma MirroredAt(interest: map<nat, set<PollBit>>, anfds: seq<Anfd>, fd: nat)
    requires Mirrored(interest, anfds) && fd < |anfds|
    ensures if anfds[fd].events == {} then fd !in interest else fd in interest && interest[fd] == ToPoll(anfds[fd].events)
  {
  }

  lemma SameEventsMirrored(interest: map<nat, set<PollBit>>, was: seq<Anfd>, now: seq<Anfd>)
    requires Mirrored(interest, was) && |now| == |was| && forall fd :: 0 <= fd < |was| ==> now[fd].events == was[fd].events
    ensures Mirrored(interest, now)
  {
  }

  /** One mask changes, and the backend is told. */
  lemma TellMirrors(interest: map<nat, set<PollBit>>, was: seq<Anfd>, now: seq<Anfd>, fd: nat)
    requires Mirrored(interest, was) && |now| == |was| && fd < |was| && forall x :: 0 <= x < |was| && x != fd ==> was[x] == now[x]
    ensures Mirrored(if now[fd].events == {} then interest - {fd} else interest[fd := ToPoll(now[fd].events)], now)
    ensures now[fd].events == was[fd].events ==> Mirrored(interest, now)
  {
  }

  /** A call of ev_feed_event. */
  datatype IoFeed = IoFeed(w: IoWatcher, events: Mask)

  /** What the watchers of a list are fed, each as far as it is interested. */
  ghost function FeedsOf(head: seq<IoWatcher>, revents: Mask): (r: seq<IoFeed>)
    reads head
  {
    if head == [] then [] else
    FeedsOf(head[..|head| - 1], revents) + FeedOf(head[|head| - 1], revents)
  }

  ghost function FeedOf(w: IoWatcher, revents: Mask): (r: seq<IoFeed>)
    reads w
  {
    if w.events * revents != {} then [IoFeed(w, w.events * revents)] else []
  }

  lemma {:induction false} FeedsAre(head: seq<IoWatcher>, revents: Mask)
    requires Distinct(head)
    ensures OnceEach(FeedsOf(head, revents))
    ensures forall x :: x in FeedsOf(head, revents) ==> x.w in head && x.events == x.w.events * revents != {}
    ensures forall w :: w in head && w.events * revents != {} ==> IoFeed(w, w.events * revents) in FeedsOf(head, revents)
  {
    if head != [] {
      var n := |head| - 1;
      FeedsAre(head[..n], revents);
      assert head == head[..n] + [head[n]] && head[n] !in head[..n];
    }
  }

  /** No watcher is fed twice. */
  ghost predicate OnceEach(fs: seq<IoFeed>) {
    forall i, j :: 0 <= i < j < |fs| ==> fs[i].w != fs[j].w
  }

  lemma OnceEachBoth(a: seq<IoFeed>, b: seq<IoFeed>)
    requires OnceEach(a) && OnceEach(b) && forall x, y :: x in a && y in b ==> x.w != y.w
    ensures OnceEach(a + b)
  {
    var s := a + b;
    forall i, j | 0 <= i < j < |s| ensures s[i].w != s[j].w {
      if i < |a| <= j {
        assert a[i] in a && b[j - |a|] in b;
      }
    }
  }

  class Table {
    var anfds: seq<Anfd>
    var fdchanges: seq<nat>
    var fed: seq<IoFeed>
    const backend: Poll
    ghost const ws: set<IoWatcher>      // every io watcher the program uses

    constructor (ghost all: set<IoWatcher>)
      requires forall w :: w in all ==> !w.active && w.events <= IO_BITS
      ensures Valid() && fresh(backend) && ws == all && fdchanges == []
    {
      anfds, fdchanges, fed, ws := [], [], [], all;
      backend := new Poll();
    }

    /** The started watchers of a descriptor. */
    ghost function Started(fd: nat): (res: set<IoWatcher>)
      reads ws`fd, ws`active
    {
      set w | w in ws && w.active && w.fd == fd
    }

    /** What they are interested in. */
    ghost function Wanted(fd: nat): (res: Mask)
      reads ws`fd, ws`active, ws`events
    {
      set w, e | w in Started(fd) && e in w.events :: e
    }

    ghost predicate HeadOk(fd: nat, head: seq<IoWatcher>)
      reads ws`fd, ws`active
    {
      Distinct(head) && (forall w :: w in head ==> w in Started(fd)) && forall w :: w in Started(fd) ==> w in head
    }

    /** The list of a descriptor holds its started watchers, each once. */
    ghost predicate ListsOk()
      reads `anfds, ws`fd, ws`active
    {
      && (forall fd :: 0 <= fd < |anfds| ==> HeadOk(fd, anfds[fd].head))
      && (forall w :: w in ws && w.active ==> w.fd < |anfds|)
    }

    ghost predicate EventsOk()
      reads ws`events
    {
      forall w :: w in ws ==> w.events <= IO_BITS
    }

    /** From index n on, fdchanges lists the descriptors to be reified, each once. */
    ghost predicate ChangesOk(n: nat)
      reads `anfds, `fdchanges
    {
      Noted(anfds, fdchanges, n)
    }

    /** The backend watches exactly the descriptors with a mask. */
    ghost predicate MirrorOk()
      reads `anfds, backend
    {
      && backend.Valid() && Mirrored(backend.Interest(), anfds)
      && forall fd :: 0 <= fd < |anfds| ==> anfds[fd].events <= IO_BITS
    }

    /** The mask of a descriptor is up to date, if it is not to be reified. */
    ghost predicate MaskOk(fd: nat, a: Anfd)
      reads ws`fd, ws`active, ws`events
    {
      a.reify == {} ==> a.events == Wanted(fd)
    }

    ghost predicate MasksOk()
      reads `anfds, ws`fd, ws`active, ws`events
    {
      forall fd :: 0 <= fd < |anfds| ==> MaskOk(fd, anfds[fd])
    }

    ghost predicate Valid()
      reads `anfds, `fdchanges, backend, ws
    {
      ListsOk() && EventsOk() && ChangesOk(0) && MirrorOk() && MasksOk()
    }

    ghost predicate Interested(fd: nat, e: Event)
      reads ws`fd, ws`active, ws`events
    {
      exists w :: w in ws && w.active && w.fd == fd && e in w.events
    }

    /** What fd_reify leaves behind: poll(2) watches a descriptor to be read if
        and only if some started watcher wants to read it, and likewise for
        writing, and no other descriptors. */
    ghost predicate UpToDate()
      requires backend.Valid()
      reads backend, ws
    {
      forall fd: nat ::
        && (backend.Asks(fd, PollIn) <==> Interested(fd, Read))
        && (backend.Asks(fd, PollOut) <==> Interested(fd, Write))
        && (fd in backend.Interest() ==> Interested(fd, Read) || Interested(fd, Write))
    }

    lemma WantedIs(fd: nat, e: Event)
      ensures e in Wanted(fd) <==> Interested(fd, e)
    {
      if Interested(fd, e) {
        var w :| w in ws && w.active && w.fd == fd && e in w.events;
        assert w in Started(fd);
      }
    }

    lemma NoneStarted(fd: nat)
      requires ListsOk() && fd >= |anfds|
      ensures Started(fd) == {} && Wanted(fd) == {}
    {
    }

    lemma ReifiedIsUpToDate()
      requires Valid() && fdchanges == []
      ensures UpToDate() && forall fd :: 0 <= fd < |anfds| ==> anfds[fd].events == Wanted(fd) && anfds[fd].reify == {}
    {
      hide Poll.Interest, Poll.Valid, Mirrored;
      forall fd: nat ensures Wanted(fd) == if fd < |anfds| then anfds[fd].events else {} {
        if fd < |anfds| {
          assert anfds[fd].reify == {} && MaskOk(fd, anfds[fd]);
        } else {
          NoneStarted(fd);
        }
      }
      forall fd: nat
        ensures backend.Asks(fd, PollIn) <==> Interested(fd, Read)
        ensures backend.Asks(fd, PollOut) <==> Interested(fd, Write)
        ensures fd in backend.Interest() ==> Interested(fd, Read) || Interested(fd, Write) {
        AskedIsWanted(fd);
        WantedIs(fd, Read);
        WantedIs(fd, Write);
      }
    }

    lemma AskedIsWanted(fd: nat)
      requires MirrorOk() && Wanted(fd) == if fd < |anfds| then anfds[fd].events else {}
      ensures fd in backend.Interest() <==> Wanted(fd) != {}
      ensures fd in backend.Interest() ==> backend.Interest()[fd] == ToPoll(Wanted(fd)) && Wanted(fd) <= IO_BITS
      ensures fd in backend.Interest() ==> Read in Wanted(fd) || Write in Wanted(fd)
    {
      hide Poll.Interest, Poll.Valid;
      if fd in backend.Interest() {
        var e :| e in Wanted(fd);
        assert e == Read || e == Write;
      }
    }

    /** array_needsize on anfds, whose new entries are zero. */
    method NeedAnfd(fd: nat)
      requires Valid()
      modifies `anfds
      ensures Valid() && fd < |anfds| && old(anfds) <= anfds && fdchanges == old(fdchanges)
    {
      hide Poll.Valid, Poll.Interest;
      if fd >= |anfds| {
        forall x: nat | |anfds| <= x ensures HeadOk(x, []) && MaskOk(x, NO_ANFD) {
          NoneStarted(x);
        }
        anfds := anfds + seq(fd + 1 - |anfds|, _ => NO_ANFD);
      }
    }

    /** fd_change */
    method Change(fd: nat, flags: set<Change>)
      requires ChangesOk(0) && fd < |anfds| && flags != {}
      modifies `anfds, `fdchanges
      ensures ChangesOk(0) && anfds == old(anfds)[fd := old(anfds)[fd].(reify := old(anfds)[fd].reify + flags)]
    {
      var reify := anfds[fd].reify;
      anfds := anfds[fd := anfds[fd].(reify := reify + flags)];
      MoreNoted(old(anfds), anfds, fdchanges, fd);
      if reify == {} {
        fdchanges := fdchanges + [fd];
      }
    }

    // ---------- starting and stopping ----------

    /** Everything but the mask of one descriptor, about to be noted as changed. */
    ghost predicate ValidBut(fd: nat)
      reads `anfds, `fdchanges, backend, ws
    {
      && ListsOk() && EventsOk() && ChangesOk(0) && MirrorOk()
      && fd < |anfds| && forall x :: 0 <= x < |anfds| && x != fd ==> MaskOk(x, anfds[x])
    }

    /** ev_io_set, which may only be called on a stopped watcher. */
    method IoSet(w: IoWatcher, fd: nat, events: Mask)
      requires Valid() && w in ws && !w.active && events <= IO_BITS
      modifies w`fd, w`events, w`fdset
      ensures Valid() && w.fd == fd && w.events == events && w.fdset
    {
      hide Mirrored, Noted, Distinct, Poll.Valid, Poll.Interest;
      w.fd, w.events, w.fdset := fd, events, true;
    }

    /** ev_io_start */
    method IoStart(w: IoWatcher)
      requires Valid() && w in ws
      modifies `anfds, `fdchanges, w`active, w`fdset
      ensures Valid() && w.active
      ensures old(w.active) ==> anfds == old(anfds) && fdchanges == old(fdchanges) && w.fdset == old(w.fdset)
      ensures !old(w.active) ==>
        && !w.fdset && w.fd < |anfds| && anfds[w.fd].reify >= {AnfdReify} + if old(w.fdset) then {IoFdSet} else {}
    {
      hide Mirrored, Noted, Poll.Valid, Poll.Interest;
      if w.active {
        return;
      }
      NeedAnfd(w.fd);
      Enlist(w);
      NoteChange(w.fd, {AnfdReify} + if w.fdset then {IoFdSet} else {});
      w.fdset := false;
    }

    method NoteChange(fd: nat, flags: set<Change>)
      requires ValidBut(fd) && flags != {}
      modifies `anfds, `fdchanges
      ensures Valid() && fd < |anfds| && anfds[fd].reify >= flags
    {
      hide Mirrored, Noted, Poll.Valid, Poll.Interest;
      ghost var was := anfds;
      Change(fd, flags);
      SameEventsMirrored(backend.Interest(), was, anfds);
    }

    /** wlist_add */
    method Enlist(w: IoWatcher)
      requires Valid() && w in ws && !w.active && w.fd < |anfds|
      modifies `anfds, w`active
      ensures ValidBut(w.fd) && w.active
    {
      hide Noted, Mirrored, Distinct, Poll.Valid, Poll.Interest;
      var fd := w.fd;
      var head := [w] + anfds[fd].head;
      assert HeadOk(fd, anfds[fd].head);
      ConsMembers(w, anfds[fd].head);
      w.active := true;
      anfds := anfds[fd := anfds[fd].(head := head)];
      HeadsOnly(old(anfds), anfds, fdchanges, backend.Interest());
      StartedElsewhere(w);
      assert forall x :: x in Started(fd) <==> x == w || x in old(Started(fd));
      forall x | 0 <= x < |anfds| && x != fd ensures HeadOk(x, anfds[x].head) && MaskOk(x, anfds[x]) {
        assert old(HeadOk(x, anfds[x].head)) && old(MaskOk(x, anfds[x]));
      }
    }

    /** Starting or stopping w makes no difference to the other descriptors. */
    twostate lemma StartedElsewhere(w: IoWatcher)
      requires w in ws && w.fd == old(w.fd) && forall x :: x in ws && x != w ==> x.active == old(x.active) && x.fd == old(x.fd)
      requires forall x :: x in ws ==> x.events == old(x.events)
      ensures forall fd: nat :: fd != w.fd ==> Started(fd) == old(Started(fd)) && Wanted(fd) == old(Wanted(fd))
    {
    }

    /** ev_io_stop, whose clear_pending is not part of this table. */
    method IoStop(w: IoWatcher)
      requires Valid() && w in ws
      modifies `anfds, `fdchanges, w`active
      ensures Valid() && !w.active
      ensures !old(w.active) ==> anfds == old(anfds) && fdchanges == old(fdchanges)
      ensures old(w.active) ==> w.fd < |anfds| && AnfdReify in anfds[w.fd].reify
    {
      if !w.active {
        return;
      }
      Delist(w);
      NoteChange(w.fd, {AnfdReify});
    }

    method Delist(w: IoWatcher)
      requires Valid() && w in ws && w.active
      modifies `anfds, w`active
      ensures ValidBut(w.fd) && !w.active
    {
      hide Noted, Mirrored, Distinct, Poll.Valid, Poll.Interest;
      var fd := w.fd;
      var head := Unlink(anfds[fd].head, w);
      assert HeadOk(fd, anfds[fd].head);
      WithoutMembers(anfds[fd].head, w);
      w.active := false;
      anfds := anfds[fd := anfds[fd].(head := head)];
      HeadsOnly(old(anfds), anfds, fdchanges, backend.Interest());
      StartedElsewhere(w);
      assert forall x :: x in Started(fd) <==> x != w && x in old(Started(fd));
      forall x | 0 <= x < |anfds| && x != fd ensures HeadOk(x, anfds[x].head) && MaskOk(x, anfds[x]) {
        assert old(HeadOk(x, anfds[x].head)) && old(MaskOk(x, anfds[x]));
      }
    }

    /** The search loop of wlist_del. */
    method Unlink(head: seq<IoWatcher>, w: IoWatcher) returns (r: seq<IoWatcher>)
      ensures r == Without(head, w)
    {
      var i := 0;
      while i < |head| && head[i] != w
        invariant i <= |head| && forall j :: 0 <= j < i ==> head[j] != w
      {
        i := i + 1;
      }
      WithoutAt(head, w, i);
      r := if i < |head| then head[..i] + head[i + 1..] else head;
    }

    // ---------- telling the backend ----------

    /** fd_reify */
    method FdReify()
      requires Valid()
      modifies `anfds, `fdchanges, backend
      ensures Valid() && fdchanges == [] && UpToDate()
      ensures |anfds| == |old(anfds)| && forall fd :: 0 <= fd < |anfds| ==> anfds[fd].head == old(anfds)[fd].head
      ensures forall fd :: 0 <= fd < |anfds| ==> anfds[fd].events == Wanted(fd)
    {
      hide Mirrored, Noted, Poll.Valid, Poll.Interest;
      for i := 0 to |fdchanges|
        invariant |fdchanges| == |old(fdchanges)| && ListsOk() && EventsOk() && ChangesOk(i) && MirrorOk() && MasksOk()
        invariant |anfds| == |old(anfds)| && forall fd :: 0 <= fd < |anfds| ==> anfds[fd].head == old(anfds)[fd].head
      {
        ghost var was := anfds;
        FirstNoted(anfds, fdchanges, i);
        ReifyOne(fdchanges[i]);
        NextNoted(was, anfds, fdchanges, i);
      }
      NoneNoted(anfds, fdchanges);
      fdchanges := [];
      ReifiedIsUpToDate();
    }

    /** One turn of the loop of fd_reify. */
    method ReifyOne(fd: nat)
      requires fd < |anfds| && anfds[fd].reify != {} && ListsOk() && EventsOk() && MirrorOk() && MasksOk()
      modifies `anfds, backend
      ensures anfds == old(anfds)[fd := Anfd(old(anfds)[fd].head, Wanted(fd), {})]
      ensures ListsOk() && MirrorOk() && MasksOk()
    {
      hide Distinct, ListsOk, MasksOk, Mirrored;
      var oEvents := anfds[fd].events;
      var events, changed := ReifyMask(fd);
      TellBackend(fd, oEvents, events, changed, old(anfds));
    }

    method ReifyMask(fd: nat) returns (events: Mask, changed: bool)
      requires fd < |anfds| && anfds[fd].reify != {} && ListsOk() && EventsOk() && MasksOk()
      modifies `anfds
      ensures events == Wanted(fd) <= IO_BITS && (old(anfds)[fd].events != events ==> changed)
      ensures anfds == old(anfds)[fd := Anfd(old(anfds)[fd].head, events, {})]
      ensures ListsOk() && MasksOk()
    {
      var oReify := anfds[fd].reify;
      events := ReadMasks(fd);
      if anfds[fd].events != events {
        oReify := {IoFdSet};
      }
      changed := IoFdSet in oReify;
      anfds := anfds[fd := Anfd(anfds[fd].head, events, {})];
    }

    method TellBackend(fd: nat, oEvents: Mask, events: Mask, changed: bool, ghost was: seq<Anfd>)
      requires fd < |anfds| && backend.Valid() && anfds[fd].events == events && (oEvents != events ==> changed)
      requires oEvents <= IO_BITS && forall x :: 0 <= x < |anfds| ==> anfds[x].events <= IO_BITS
      requires |was| == |anfds| && was[fd].events == oEvents && Mirrored(backend.Interest(), was)
      requires forall x :: 0 <= x < |anfds| && x != fd ==> was[x] == anfds[x]
      modifies backend
      ensures MirrorOk()
    {
      hide Mirrored, Poll.Valid, Poll.Interest;
      MirroredAt(backend.Interest(), was, fd);
      TellMirrors(backend.Interest(), was, anfds, fd);
      if changed {
        backend.Modify(fd, oEvents, events);
      }
    }

    /** The inner loop of fd_reify. */
    method ReadMasks(fd: nat) returns (events: Mask)
      requires fd < |anfds| && HeadOk(fd, anfds[fd].head) && EventsOk()
      ensures events == Wanted(fd) && events <= IO_BITS
    {
      var head := anfds[fd].head;
      events := {};
      for i := 0 to |head|
        invariant forall e :: e in events <==> exists j :: 0 <= j < i && e in head[j].events
      {
        events := events + head[i].events;
      }
      forall e ensures e in events <==> e in Wanted(fd) {
        if e in Wanted(fd) {
          var w :| w in Started(fd) && e in w.events;
          assert w in head;
        }
      }
    }

    // ---------- telling the watchers ----------

    /** fd_event_nocheck */
    method FdEventNocheck(fd: nat, revents: Mask)
      requires fd < |anfds|
      modifies `fed
      ensures fed == old(fed) + old(FeedsOf(anfds[fd].head, revents))
    {
      var head := anfds[fd].head;
      assert head[..0] == [];
      for i := 0 to |head|
        invariant fed == old(fed) + FeedsOf(head[..i], revents)
      {
        assert head[..i + 1][..i] == head[..i];
        var ev := head[i].events * revents;
        if ev != {} {
          fed := fed + [IoFeed(head[i], ev)];
        }
      }
      assert head[..|head|] == head;
    }

    /** fd_event */
    method FdEvent(fd: nat, revents: Mask)
      requires fd < |anfds|
      modifies `fed
      ensures fed == old(fed) + old(if anfds[fd].reify == {} then FeedsOf(anfds[fd].head, revents) else [])
    {
      if anfds[fd].reify == {} {
        FdEventNocheck(fd, revents);
      }
    }

    /** Report number i is about the descriptor of w. */
    ghost predicate About(w: IoWatcher, i: nat)
      reads backend, w
    {
      w.fd < |backend.pollidxs| && backend.pollidxs[w.fd] == i
    }

    /** What report number i is for w, as far as w is interested and its
        descriptor has not changed meanwhile. */
    ghost function ReportFor(w: IoWatcher, revents: set<PollBit>): (m: Mask)
      reads `anfds, w
    {
      if w.fd < |anfds| && anfds[w.fd].reify == {} then w.events * FromPoll(revents) else {}
    }

    /** A feed that report number i calls for. */
    ghost predicate CalledFor(x: IoFeed, i: nat, revents: set<PollBit>)
      reads `anfds, backend, ws, x.w
    {
      x.w in ws && x.w.active && About(x.w, i) && x.events == ReportFor(x.w, revents) && x.events != {}
    }

    /** The feeds fs are those that the first n reports call for. */
    ghost predicate Told(fs: seq<IoFeed>, revents: seq<set<PollBit>>, n: nat)
      requires n <= |revents|
      reads `anfds, backend, ws
    {
      && OnceEach(fs)
      && (forall x :: x in fs ==> x.w in ws && exists i: nat :: i < n && CalledFor(x, i, revents[i]))
      && forall w, i: nat :: w in ws && i < n && CalledFor(IoFeed(w, ReportFor(w, revents[i])), i, revents[i]) ==>
           IoFeed(w, ReportFor(w, revents[i])) in fs
    }

    ghost function HeadFor(i: nat): (head: seq<IoWatcher>)
      requires i < |backend.polls|
      reads `anfds, backend
    {
      var fd := backend.polls[i].fd;
      if fd < |anfds| && anfds[fd].reify == {} then anfds[fd].head else []
    }

    /** The feeds for one report. */
    ghost function FeedsFor(i: nat, revents: set<PollBit>): (r: seq<IoFeed>)
      requires i < |backend.polls|
      reads `anfds, backend, HeadFor(i)
    {
      FeedsOf(HeadFor(i), FromPoll(revents))
    }

    lemma HeadForIs(i: nat)
      requires Valid() && i < |backend.polls|
      ensures backend.polls[i].fd < |anfds| && Distinct(HeadFor(i))
      ensures forall w :: w in HeadFor(i) ==> w in ws && w.active && About(w, i) && anfds[w.fd].reify == {}
      ensures forall w :: w in ws && w.active && About(w, i) && w.fd < |anfds| && anfds[w.fd].reify == {} ==> w in HeadFor(i)
    {
      hide Noted, EventsOk, MasksOk, ChangesOk;
      var fd := backend.polls[i].fd;
      assert fd in backend.Interest();
      assert HeadOk(fd, anfds[fd].head);
    }

    lemma FeedsForAre(i: nat, revents: set<PollBit>)
      requires Valid() && i < |backend.polls|
      ensures OnceEach(FeedsFor(i, revents))
      ensures forall x :: x in FeedsFor(i, revents) ==> CalledFor(x, i, revents)
      ensures forall x :: CalledFor(x, i, revents) ==> x in FeedsFor(i, revents)
    {
      HeadForIs(i);
      FeedsAre(HeadFor(i), FromPoll(revents));
      hide Valid, FeedsOf, HeadFor, Distinct, OnceEach;
      forall x | CalledFor(x, i, revents) ensures x in FeedsFor(i, revents) {
        assert x == IoFeed(x.w, x.w.events * FromPoll(revents));
      }
    }

    lemma NothingReported(i: nat)
      requires Valid() && i < |backend.polls|
      ensures FeedsFor(i, {}) == []
    {
      FeedsForAre(i, {});
      hide FeedsFor, Valid;
      var fs := FeedsFor(i, {});
      assert FromPoll({}) == {};
      assert fs != [] ==> fs[0] in fs && CalledFor(fs[0], i, {});
    }

    lemma TellMore(fs: seq<IoFeed>, revents: seq<set<PollBit>>, n: nat)
      requires Valid() && n < |revents| == |backend.polls| && Told(fs, revents, n)
      ensures Told(fs + FeedsFor(n, revents[n]), revents, n + 1)
    {
      var more := FeedsFor(n, revents[n]);
      FeedsForAre(n, revents[n]);
      hide FeedsFor, ReportFor, Valid, OnceEach;
      forall x, y | x in fs && y in more ensures x.w != y.w {
        assert CalledFor(y, n, revents[n]);
      }
      OnceEachBoth(fs, more);
      forall x | x in fs + more ensures x.w in ws && exists i: nat :: i < n + 1 && CalledFor(x, i, revents[i]) {
        if x in more {
          assert CalledFor(x, n, revents[n]);
        }
      }
    }

    /** The loop of poll_poll: whatever poll(2) reports, each started watcher
        whose descriptor is ready for something that it wants is told so, once
        and of no more, and no other watcher is told anything. */
    method PollPoll(revents: seq<set<PollBit>>)
      requires Valid() && |revents| == |backend.polls|
      modifies `fed
      ensures Valid() && old(fed) <= fed && Told(fed[|old(fed)|..], revents, |revents|)
    {
      hide Told, FeedsFor, Poll.Valid, Poll.Interest, Mirrored, Noted;
      ghost var was, more := fed, [];
      NoneTold(revents);
      for i := 0 to |backend.polls|
        invariant Valid() && fed == was + more && Told(more, revents, i)
      {
        TellMore(more, revents, i);
        more := more + FeedsFor(i, revents[i]);
        TellOne(i, revents[i]);
      }
      assert fed[|was|..] == more;
    }

    lemma NoneTold(revents: seq<set<PollBit>>)
      ensures Told([], revents, 0)
    {
    }

    /** With no change left to be told to the backend, there is a report for
        every started watcher, and what it is told is what it wants and poll(2)
        has reported, errors and hangups as both. */
    lemma EveryWatcherTold(fs: seq<IoFeed>, revents: seq<set<PollBit>>, w: IoWatcher) returns (i: nat)
      requires Valid() && fdchanges == [] && |revents| == |backend.polls| && Told(fs, revents, |revents|)
      requires w in ws && w.active && w.events != {}
      ensures i < |revents| && About(w, i)
      ensures var bad := PollErr in revents[i] || PollHup in revents[i];
        && ((exists x :: x in fs && x.w == w && Read in x.events) <==> Read in w.events && (PollIn in revents[i] || bad))
        && ((exists x :: x in fs && x.w == w && Write in x.events) <==> Write in w.events && (PollOut in revents[i] || bad))
    {
      ReifiedIsUpToDate();
      var e :| e in w.events;
      assert w.fd in backend.Interest() by {
        WantedIs(w.fd, e);
        AskedIsWanted(w.fd);
      }
      i := backend.pollidxs[w.fd];
      var m := ReportFor(w, revents[i]);
      assert m == w.events * FromPoll(revents[i]);
      assert m != {} ==> IoFeed(w, m) in fs by {
        assert m != {} ==> CalledFor(IoFeed(w, m), i, revents[i]);
      }
      forall x | x in fs && x.w == w ensures x.events == m {
      }
    }

    /** One turn of it. */
    method TellOne(i: nat, revents: set<PollBit>)
      requires Valid() && i < |backend.polls|
      modifies `fed
      ensures Valid() && fed == old(fed) + old(FeedsFor(i, revents))
    {
      HeadForIs(i);
      hide Valid, FeedsOf, Poll.Valid, Poll.Interest;
      if revents != {} {
        NoFeeds(FromPoll(revents));
        FdEvent(backend.polls[i].fd, FromPoll(revents));
      } else {
        NothingReported(i);
      }
    }

    lemma NoFeeds(revents: Mask)
      ensures FeedsOf([], revents) == []
    {
    }
  }
}
