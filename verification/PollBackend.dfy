/** The poll backend: the array handed to poll(2), and for every descriptor its
    index in that array, or -1. */
module PollBackend {
  import opened EventMask
  import opened Maps

  datatype PollBit = PollIn | PollOut | PollErr | PollHup

  datatype PollFd = PollFd(fd: nat, events: set<PollBit>)

  function ToPoll(mask: Mask): (res: set<PollBit>)
    ensures PollIn in res <==> Read in mask
    ensures PollOut in res <==> Write in mask
  {
    (if Read in mask then {PollIn} else {}) + (if Write in mask then {PollOut} else {})
  }

  /** What poll_poll makes of what poll(2) reports: an error or a hangup is
      something to read and to write. */
  function FromPoll(revents: set<PollBit>): (mask: Mask)
    ensures Read in mask <==> PollIn in revents || PollErr in revents || PollHup in revents
    ensures Write in mask <==> PollOut in revents || PollErr in revents || PollHup in revents
    ensures mask <= {Read, Write}
  {
    var bad := PollErr in revents || PollHup in revents;
    (if PollOut in revents || bad then {Write} else {}) + (if PollIn in revents || bad then {Read} else {})
  }

  /** Masks of io watchers hold only these bits. */
  const IO_BITS: Mask := {Read, Write}

  /** The array and the index are inverse to each other. */
  ghost predicate Inverse(polls: seq<PollFd>, idxs: seq<int>) {
    && (forall fd :: 0 <= fd < |idxs| && idxs[fd] >= 0 ==> idxs[fd] < |polls| && polls[idxs[fd]].fd == fd)
    && (forall i :: 0 <= i < |polls| ==> polls[i].fd < |idxs| && idxs[polls[i].fd] == i)
  }

  ghost function Watched(polls: seq<PollFd>, idxs: seq<int>): (m: map<nat, set<PollBit>>)
    requires Inverse(polls, idxs)
    ensures forall i :: 0 <= i < |polls| ==> polls[i].fd in m && m[polls[i].fd] == polls[i].events
    ensures forall fd: nat :: fd in m <==> fd < |idxs| && idxs[fd] >= 0
    ensures forall fd :: fd in m ==> m[fd] == polls[idxs[fd]].events
  {
    var fds := set fd: nat | fd < |idxs| && idxs[fd] >= 0;
    MapOf(fds, (fd: nat) requires fd in fds => polls[idxs[fd]].events)
  }

  lemma LastRemoved(polls: seq<PollFd>, idxs: seq<int>, fd: nat)
    requires Inverse(polls, idxs) && fd < |idxs| && polls != [] && idxs[fd] == |polls| - 1
    ensures var p, x := polls[..|polls| - 1], idxs[fd := -1];
      Inverse(p, x) && Watched(p, x) == Watched(polls, idxs) - {fd}
  {
    hide Watched;
    var n := |polls| - 1;
    assert polls[n].fd == fd;
    forall i | 0 <= i < n ensures polls[i].fd != fd {
      assert idxs[polls[i].fd] == i;
    }
    OneLess(polls, idxs, polls[..n], idxs[fd := -1], fd);
  }

  lemma MiddleInverse(polls: seq<PollFd>, idxs: seq<int>, fd: nat, idx: nat)
    requires Inverse(polls, idxs) && fd < |idxs| && idxs[fd] == idx < |polls| - 1
    ensures var n := |polls| - 1;
      && polls[n].fd < |idxs| && polls[n].fd != fd && idxs[polls[n].fd] == n && polls[idx].fd == fd
      && Inverse(polls[..n][idx := polls[n]], idxs[fd := -1][polls[n].fd := idx])
  {
    var n := |polls| - 1;
    var last := polls[n];
    var p, x := polls[..n][idx := last], idxs[fd := -1][last.fd := idx];
    forall i | 0 <= i < n ensures p[i].fd < |x| && x[p[i].fd] == i {
      assert idxs[polls[i].fd] == i;
    }
  }

  /** Where descriptor k is after that. */
  lemma MiddleAt(polls: seq<PollFd>, idxs: seq<int>, fd: nat, idx: nat, k: nat)
    requires Inverse(polls, idxs) && fd < |idxs| && idxs[fd] == idx < |polls| - 1
    ensures polls[|polls| - 1].fd < |idxs|
    ensures var x := idxs[fd := -1][polls[|polls| - 1].fd := idx];
      |x| == |idxs| && (k < |x| && x[k] >= 0 <==> k < |idxs| && idxs[k] >= 0 && k != fd)
    ensures k < |idxs| && idxs[k] >= 0 && k != fd ==>
      var n := |polls| - 1;
      var j := idxs[fd := -1][polls[n].fd := idx][k];
      0 <= j < n && polls[..n][idx := polls[n]][j].events == polls[idxs[k]].events
  {
    MiddleInverse(polls, idxs, fd, idx);
  }

  /** Descriptor fd gone, and the others watched for the same events. */
  lemma OneLess(polls: seq<PollFd>, idxs: seq<int>, p: seq<PollFd>, x: seq<int>, fd: nat)
    requires Inverse(polls, idxs) && Inverse(p, x) && |x| == |idxs|
    requires forall k :: 0 <= k < |x| ==> (x[k] >= 0 <==> idxs[k] >= 0 && k != fd)
    requires forall k :: 0 <= k < |x| && x[k] >= 0 ==> p[x[k]].events == polls[idxs[k]].events
    ensures Watched(p, x) == Watched(polls, idxs) - {fd}
  {
    hide Watched;
  }

  lemma MiddleRemoved(polls: seq<PollFd>, idxs: seq<int>, fd: nat, idx: nat)
    requires Inverse(polls, idxs) && fd < |idxs| && idxs[fd] == idx < |polls| - 1
    ensures var n := |polls| - 1;
      && polls[n].fd < |idxs|
      && var p, x := polls[..n][idx := polls[n]], idxs[fd := -1][polls[n].fd := idx];
         Inverse(p, x) && Watched(p, x) == Watched(polls, idxs) - {fd}
  {
    MiddleInverse(polls, idxs, fd, idx);
    hide Inverse, Watched;
    var n := |polls| - 1;
    var p, x := polls[..n][idx := polls[n]], idxs[fd := -1][polls[n].fd := idx];
    forall k | 0 <= k < |x|
      ensures x[k] >= 0 <==> idxs[k] >= 0 && k != fd
      ensures x[k] >= 0 ==> 0 <= x[k] < n && p[x[k]].events == polls[idxs[k]].events {
      MiddleAt(polls, idxs, fd, idx, k);
    }
    OneLess(polls, idxs, p, x, fd);
  }

  class Poll {
    var polls: seq<PollFd>
    var pollidxs: seq<int>

    constructor ()
      ensures Valid() && polls == [] && pollidxs == []
    {
      polls, pollidxs := [], [];
    }

    ghost predicate Valid()
      reads this
    {
      Inverse(polls, pollidxs)
    }

    /** What poll(2) is asked to watch. */
    ghost function Interest(): (m: map<nat, set<PollBit>>)
      requires Valid()
      reads this
      ensures forall i :: 0 <= i < |polls| ==> polls[i].fd in m && m[polls[i].fd] == polls[i].events
      ensures forall fd :: fd in m ==> fd < |pollidxs| && pollidxs[fd] >= 0
    {
      Watched(polls, pollidxs)
    }

    /** Will poll(2) watch fd for this? */
    ghost predicate Asks(fd: nat, bit: PollBit)
      requires Valid()
      reads this
    {
      fd in Interest() && bit in Interest()[fd]
    }

    /** poll_modify */
    method Modify(fd: nat, oev: Mask, nev: Mask)
      requires Valid() && oev <= IO_BITS && nev <= IO_BITS
      requires oev == {} ==> fd !in Interest()
      requires oev != {} ==> fd in Interest() && Interest()[fd] == ToPoll(oev)
      modifies this
      ensures Valid()
      ensures Interest() == if nev == {} then old(Interest()) - {fd} else old(Interest())[fd := ToPoll(nev)]
      ensures Asks(fd, PollIn) <==> Read in nev
      ensures Asks(fd, PollOut) <==> Write in nev
    {
      hide Watched;
      if oev == nev {
        return;
      }
      NeedIndex(fd);
      if pollidxs[fd] < 0 {
        Allocate(fd);
      }
      var idx := pollidxs[fd];
      if nev != {} {
        SetAt(fd, idx, ToPoll(nev));
      } else {
        RemoveAt(fd, idx);
      }
    }

    /** array_needsize on pollidxs, whose new entries are -1. */
    method NeedIndex(fd: nat)
      requires Valid()
      modifies this`pollidxs
      ensures Valid() && fd < |pollidxs| && Interest() == old(Interest())
    {
      if fd >= |pollidxs| {
        pollidxs := pollidxs + seq(fd + 1 - |pollidxs|, _ => -1);
      }
    }

    method Allocate(fd: nat)
      requires Valid() && fd < |pollidxs| && pollidxs[fd] < 0
      modifies this
      ensures Valid() && fd < |pollidxs| && pollidxs[fd] >= 0
      ensures Interest() == old(Interest())[fd := {}]
    {
      hide Watched;
      pollidxs := pollidxs[fd := |polls|];
      polls := polls + [PollFd(fd, {})];
    }

    method SetAt(fd: nat, idx: nat, events: set<PollBit>)
      requires Valid() && fd < |pollidxs| && pollidxs[fd] == idx
      modifies this`polls
      ensures Valid() && Interest() == old(Interest())[fd := events]
    {
      polls := polls[idx := PollFd(fd, events)];
    }

    /** Removes a pollfd by moving the last one into its place. */
    method RemoveAt(fd: nat, idx: nat)
      requires Valid() && fd < |pollidxs| && pollidxs[fd] == idx
      modifies this
      ensures Valid() && Interest() == old(Interest()) - {fd}
    {
      hide Watched;
      ghost var was, were := polls, pollidxs;
      pollidxs := pollidxs[fd := -1];
      var last := polls[|polls| - 1];
      polls := polls[..|polls| - 1];
      if idx < |polls| {
        MiddleRemoved(was, were, fd, idx);
        hide Inverse;
        polls := polls[idx := last];
        pollidxs := pollidxs[last.fd := idx];
      } else {
        LastRemoved(was, were, fd);
        hide Inverse;
      }
    }
  }
}
