/** Theora frames over RTP: cutting a packet into fragments and putting them
    together again. */
module TheoraFragments {
  import opened Octets

  const RTP_HEADER := 12        // sizeof(rtp_hdr_t)
  const PACKED_HEADER := 8      // sizeof(theora_packed_header_t), padding included
  const DATA := 6               // where its data begins
  const PATH_MTU_RTP := 1500 - RTP_HEADER
  const PATH_MTU_THEORA := 1500 - RTP_HEADER - PACKED_HEADER

  // ---------- fragments ----------

  /** The four bytes of ident and the two of plen, in network order. */
  function Header(mark: nat, tdt: nat, plen: nat): (h: Bytes)
    requires mark < 4 && tdt < 4 && plen < 0x8000
  {
    [0xff, 0x11, 0x00, mark * 64 + tdt * 16 + 1, plen / 256, plen % 256]
  }

  /** As it is on the wire: a single frame of 300 bytes, and the last fragment of
      a longer one, of 1000. */
  lemma OnTheWire()
    ensures Header(0, 0, 300) == [0xff, 0x11, 0x00, 0x01, 0x01, 0x2c]
    ensures Header(3, 0, 1000) == [0xff, 0x11, 0x00, 0xc1, 0x03, 0xe8]
  {
  }

  /** A payload that carries a chunk; its last two bytes may be anything. */
  predicate Carries(payload: Bytes, mark: nat, chunk: Bytes)
    requires mark < 4
  {
    && |chunk| <= PATH_MTU_THEORA && |payload| == PACKED_HEADER + |chunk|
    && payload[..DATA] == Header(mark, 0, |chunk|) && payload[DATA..DATA + |chunk|] == chunk
  }

  /** The number of fragments. */
  function Pieces(packet: Bytes): (n: nat) {
    (|packet| + PATH_MTU_THEORA - 1) / PATH_MTU_THEORA
  }

  function Chunk(packet: Bytes, i: nat): (c: Bytes)
    requires i < Pieces(packet)
    ensures 0 < |c| <= PATH_MTU_THEORA
  {
    packet[i * PATH_MTU_THEORA..Min((i + 1) * PATH_MTU_THEORA, |packet|)]
  }

  /** Single, first, middle, last. */
  function Mark(i: nat, n: nat): (m: nat)
    requires i < n
    ensures m < 4
  {
    if n == 1 then 0 else if i == 0 then 1 else if i < n - 1 then 2 else 3
  }

  ghost predicate FragmentsOf(packet: Bytes, sent: seq<Bytes>) {
    |sent| == Pieces(packet) && forall i :: 0 <= i < |sent| ==> Carries(sent[i], Mark(i, |sent|), Chunk(packet, i))
  }

  /** The chunks from i on make up the rest of the packet. */
  ghost function Rest(packet: Bytes, i: nat): (r: Bytes)
    requires i <= Pieces(packet)
    decreases Pieces(packet) - i
  {
    if i == Pieces(packet) then [] else Chunk(packet, i) + Rest(packet, i + 1)
  }

  lemma {:induction false} RestIs(packet: Bytes, i: nat)
    requires i <= Pieces(packet)
    ensures i * PATH_MTU_THEORA <= |packet| || i == Pieces(packet)
    ensures Rest(packet, i) == packet[Min(i * PATH_MTU_THEORA, |packet|)..]
    decreases Pieces(packet) - i
  {
    if i < Pieces(packet) {
      RestIs(packet, i + 1);
    }
  }

  /** Cutting loses nothing. */
  lemma ChunksMakeUp(packet: Bytes)
    ensures Rest(packet, 0) == packet
  {
    RestIs(packet, 0);
  }

  /** Where the loop of the sender is after k fragments. */
  lemma NextChunk(packet: Bytes, k: nat, sent: nat)
    requires sent == Min(k * PATH_MTU_THEORA, |packet|) < |packet|
    ensures k < Pieces(packet) && (sent != 0 <==> k != 0)
    ensures PATH_MTU_THEORA < |packet| - sent <==> k < Pieces(packet) - 1
    ensures var len := Min(PATH_MTU_THEORA, |packet| - sent);
      packet[sent..sent + len] == Chunk(packet, k) && sent + len == Min((k + 1) * PATH_MTU_THEORA, |packet|)
  {
  }

  class Sender {
    const packbuf: array<Byte>
    var seqno: int

    ghost predicate Valid() {
      packbuf.Length == PATH_MTU_RTP
    }

    constructor ()
      ensures Valid() && fresh(packbuf)
    {
      packbuf := new Byte[PATH_MTU_RTP](_ => 0);
      seqno := 121;
    }

    /** Fills packbuf and hands its first bytes to rtp_send. */
    method SendChunk(mark: nat, chunk: Bytes) returns (payload: Bytes)
      requires Valid() && mark < 4 && 0 < |chunk| <= PATH_MTU_THEORA
      modifies packbuf, `seqno
      ensures Carries(payload, mark, chunk) && seqno == old(seqno) + 1
    {
      var plen := |chunk|;
      var header := Header(mark, 0, plen);
      forall i | 0 <= i < DATA {
        packbuf[i] := header[i];
      }
      forall i | 0 <= i < plen {
        packbuf[DATA + i] := chunk[i];
      }
      payload := packbuf[..PACKED_HEADER + plen];
      assert forall i :: 0 <= i < DATA ==> payload[..DATA][i] == header[i];
      assert forall i :: 0 <= i < plen ==> payload[DATA..DATA + plen][i] == chunk[i];
      seqno := seqno + 1;
    }

    /** gobee_theora_send_fragmented_rtp */
    method SendFragmentedRtp(packet: Bytes) returns (payloads: seq<Bytes>)
      requires Valid()
      modifies packbuf, `seqno
      ensures FragmentsOf(packet, payloads) && seqno == old(seqno) + |payloads|
    {
      hide Carries, Chunk;
      payloads := [];
      var sent, elapsed, mark := 0, |packet|, 0;
      while elapsed > 0
        invariant elapsed == |packet| - sent && mark < 4
        invariant sent == Min(|payloads| * PATH_MTU_THEORA, |packet|) && |payloads| <= Pieces(packet)
        invariant payloads == [] ==> mark == 0
        invariant elapsed == 0 ==> |payloads| == Pieces(packet)
        invariant forall i :: 0 <= i < |payloads| ==> Carries(payloads[i], Mark(i, Pieces(packet)), Chunk(packet, i))
        invariant seqno == old(seqno) + |payloads|
      {
        NextChunk(packet, |payloads|, sent);
        var len := if PATH_MTU_THEORA < elapsed then PATH_MTU_THEORA else elapsed;
        if PATH_MTU_THEORA < elapsed {
          mark := if sent != 0 then 2 else 1;
        } else if sent != 0 {
          mark := 3;
        }
        var payload := SendChunk(mark, packet[sent..sent + len]);
        payloads := payloads + [payload];
        sent, elapsed := sent + len, elapsed - len;
      }
    }
  }

  // ---------- reassembly ----------

  /** What the receiver keeps between packets, and what it gave to the decoder. */
  datatype Assembly = Assembly(buffer: Bytes, decoded: seq<Bytes>)

  function PLen(payload: Bytes): (n: nat)
    requires |payload| >= DATA
  {
    var hi: int, lo: int := payload[4], payload[5];
    hi * 256 + lo
  }

  /** A payload that is as long as it says. */
  predicate WellFormed(payload: Bytes) {
    |payload| >= DATA && DATA + PLen(payload) <= |payload|
  }

  function Data(payload: Bytes): (d: Bytes)
    requires WellFormed(payload)
  {
    payload[DATA..DATA + PLen(payload)]
  }

  /** One payload; only frames touch the assembly. */
  function Received(r: Assembly, payload: Bytes): (s: Assembly)
    requires WellFormed(payload)
  {
    var tdt, mark := payload[3] / 16 % 4, payload[3] / 64;
    if tdt != 0 then r
    else
      var buffer := (if mark == 0 || mark == 1 then [] else r.buffer) + Data(payload);
      Assembly(buffer, if mark == 0 || mark == 3 then r.decoded + [buffer] else r.decoded)
  }

  ghost function Delivered(r: Assembly, payloads: seq<Bytes>): (s: Assembly)
    requires AllWellFormed(payloads)
    decreases |payloads|
  {
    if payloads == [] then r else Delivered(Received(r, payloads[0]), payloads[1..])
  }

  class Receiver {
    var buffer: Bytes
    var bufsiz: nat
    var curpos: nat
    var packetno: int
    var decoded: seq<Bytes>       // the packets given to th_decode_packetin

    ghost predicate Valid()
      reads this
    {
      |buffer| == bufsiz == curpos && packetno == 1 + |decoded|
    }

    ghost function State(): (r: Assembly)
      reads this
    {
      Assembly(buffer, decoded)
    }

    constructor ()
      ensures Valid() && State() == Assembly([], [])
    {
      buffer, bufsiz, curpos, packetno, decoded := [], 0, 0, 1, [];
    }

    method Reset()
      modifies `buffer, `bufsiz, `curpos
      ensures buffer == [] && bufsiz == 0 && curpos == 0
    {
      buffer, bufsiz, curpos := [], 0, 0;
    }

    /** realloc and memcpy */
    method Append(payload: Bytes)
      requires Valid() && WellFormed(payload)
      modifies `buffer, `bufsiz, `curpos
      ensures buffer == old(buffer) + Data(payload) && Valid()
    {
      bufsiz := bufsiz + PLen(payload);
      buffer := buffer[..curpos] + payload[DATA..DATA + PLen(payload)];
      curpos := curpos + PLen(payload);
    }

    /** x_theora_dispatch_frame_packet */
    method DispatchFramePacket(payload: Bytes, mark: nat)
      requires Valid() && WellFormed(payload) && payload[3] / 16 % 4 == 0 && mark == payload[3] / 64
      modifies this
      ensures Valid() && State() == Received(old(State()), payload)
    {
      if mark == 1 || mark == 0 {
        Reset();
      }
      Append(payload);
      assert [] + Data(payload) == Data(payload) && buffer[..curpos] == buffer;
      if mark == 1 || mark == 2 {
        return;
      }
      decoded := decoded + [buffer[..curpos]];
      packetno := packetno + 1;
    }

    /** __on_theora_packet_received */
    method OnTheoraPacketReceived(payload: Bytes)
      requires Valid() && WellFormed(payload)
      modifies this
      ensures Valid() && State() == Received(old(State()), payload)
    {
      var tdt, mark := payload[3] / 16 % 4, payload[3] / 64;
      if tdt == 0 {
        DispatchFramePacket(payload, mark);
      }
    }
  }

  // ---------- the receiver inverts the sender ----------

  lemma CarriedIs(payload: Bytes, mark: nat, chunk: Bytes)
    requires mark < 4 && Carries(payload, mark, chunk)
    ensures WellFormed(payload) && Data(payload) == chunk && payload[3] / 16 % 4 == 0 && payload[3] / 64 == mark
  {
    var h := payload[..DATA];
    assert payload[3] == h[3] && payload[4] == h[4] && payload[5] == h[5];
  }

  /** What a fragment does, by its mark. */
  ghost function Taken(r: Assembly, mark: nat, chunk: Bytes): (s: Assembly) {
    var buffer := if mark == 0 || mark == 1 then chunk else r.buffer + chunk;
    Assembly(buffer, if mark == 0 || mark == 3 then r.decoded + [buffer] else r.decoded)
  }

  lemma CarriedTaken(r: Assembly, payload: Bytes, mark: nat, chunk: Bytes)
    requires mark < 4 && Carries(payload, mark, chunk)
    ensures WellFormed(payload) && Received(r, payload) == Taken(r, mark, chunk)
  {
    CarriedIs(payload, mark, chunk);
    assert [] + chunk == chunk;
  }

  ghost predicate AllWellFormed(s: seq<Bytes>) {
    forall i :: 0 <= i < |s| ==> WellFormed(s[i])
  }

  // ---------- losing fragments of a frame ----------

  /** The fragments that arrive, from i on. */
  ghost function Arriving(sent: seq<Bytes>, kept: seq<bool>, i: nat): (s: seq<Bytes>)
    requires |kept| == |sent| && i <= |sent|
    decreases |sent| - i
  {
    if i == |sent| then [] else (if kept[i] then [sent[i]] else []) + Arriving(sent, kept, i + 1)
  }

  /** What they carry. */
  ghost function Remains(packet: Bytes, kept: seq<bool>, i: nat): (r: Bytes)
    requires |kept| == Pieces(packet) && i <= |kept|
    decreases |kept| - i
  {
    if i == |kept| then [] else (if kept[i] then Chunk(packet, i) else []) + Remains(packet, kept, i + 1)
  }

  /** It is less than the rest of the packet as soon as one is missing. */
  lemma {:induction false} RemainsShorter(packet: Bytes, kept: seq<bool>, i: nat)
    requires |kept| == Pieces(packet) && i <= |kept|
    ensures if false in kept[i..] then |Remains(packet, kept, i)| < |Rest(packet, i)|
            else Remains(packet, kept, i) == Rest(packet, i)
    decreases |kept| - i
  {
    hide Pieces;
    if i < |kept| {
      RemainsShorter(packet, kept, i + 1);
      assert kept[i..] == [kept[i]] + kept[i + 1..];
      assert 0 < |Chunk(packet, i)|;
      hide Chunk;
      assert |Rest(packet, i)| == |Chunk(packet, i)| + |Rest(packet, i + 1)|;
    }
  }

  /** Does the last fragment arrive, from i on? */
  predicate LastFrom(kept: seq<bool>, i: nat) {
    i < |kept| && kept[|kept| - 1]
  }

  lemma {:induction false} LossyTail(r: Assembly, packet: Bytes, sent: seq<Bytes>, kept: seq<bool>, i: nat)
    requires FragmentsOf(packet, sent) && 0 < i <= |sent| == |kept|
    ensures AllWellFormed(Arriving(sent, kept, i))
    ensures var buffer := r.buffer + Remains(packet, kept, i);
      Delivered(r, Arriving(sent, kept, i)) == Assembly(buffer, if LastFrom(kept, i) then r.decoded + [buffer] else r.decoded)
    decreases |sent| - i
  {
    hide Carries, Chunk, WellFormed, Received, Pieces;
    if i == |sent| {
      assert r.buffer + [] == r.buffer;
    } else if kept[i] {
      CarriedTaken(r, sent[i], Mark(i, |sent|), Chunk(packet, i));
      LossyTail(Received(r, sent[i]), packet, sent, kept, i + 1);
      KeptFragment(r, packet, sent, kept, i);
    } else {
      LossyTail(r, packet, sent, kept, i + 1);
      assert [] + Arriving(sent, kept, i + 1) == Arriving(sent, kept, i + 1);
      assert [] + Remains(packet, kept, i + 1) == Remains(packet, kept, i + 1);
    }
  }

  lemma KeptFragment(r: Assembly, packet: Bytes, sent: seq<Bytes>, kept: seq<bool>, i: nat)
    requires FragmentsOf(packet, sent) && i < |sent| == |kept| && kept[i] && WellFormed(sent[i])
    requires AllWellFormed(Arriving(sent, kept, i + 1))
    ensures AllWellFormed(Arriving(sent, kept, i))
    ensures Delivered(r, Arriving(sent, kept, i)) == Delivered(Received(r, sent[i]), Arriving(sent, kept, i + 1))
    ensures r.buffer + Chunk(packet, i) + Remains(packet, kept, i + 1) == r.buffer + Remains(packet, kept, i)
    ensures i + 1 == |sent| ==> Remains(packet, kept, i) == Chunk(packet, i) && Remains(packet, kept, i + 1) == []
  {
    hide Carries, Chunk, WellFormed, Received, Pieces;
    var a := Arriving(sent, kept, i);
    assert a == [sent[i]] + Arriving(sent, kept, i + 1) && a[1..] == Arriving(sent, kept, i + 1);
    if i + 1 == |sent| {
      assert Chunk(packet, i) + [] == Chunk(packet, i);
    }
  }

  /** What the receiver has put together when the frame is over. */
  ghost function PutTogether(r: Assembly, packet: Bytes, kept: seq<bool>): (b: Bytes)
    requires |kept| == Pieces(packet) > 0
  {
    (if kept[0] then [] else r.buffer) + Remains(packet, kept, 0)
  }

  lemma FirstArrives(r: Assembly, packet: Bytes, sent: seq<Bytes>, kept: seq<bool>)
    requires FragmentsOf(packet, sent) && 0 < |sent| == |kept| && kept[0]
    ensures AllWellFormed(Arriving(sent, kept, 0))
    ensures var b := Remains(packet, kept, 0);
      Delivered(r, Arriving(sent, kept, 0)) == Assembly(b, if kept[|kept| - 1] then r.decoded + [b] else r.decoded)
  {
    hide Carries, Chunk, WellFormed, Received, Pieces, FragmentsOf, Arriving, Delivered;
    FragmentCarries(packet, sent, 0);
    CarriedTaken(r, sent[0], Mark(0, |sent|), Chunk(packet, 0));
    LossyTail(Received(r, sent[0]), packet, sent, kept, 1);
    KeptFragment(Assembly([], []), packet, sent, kept, 0);
    KeptFragment(r, packet, sent, kept, 0);
    assert [] + Chunk(packet, 0) == Chunk(packet, 0) && [] + Remains(packet, kept, 0) == Remains(packet, kept, 0);
  }

  lemma SomeSent(packet: Bytes, sent: seq<Bytes>)
    requires FragmentsOf(packet, sent) && packet != []
    ensures |sent| == Pieces(packet) > 0
  {
    hide Carries, Chunk;
  }

  lemma FragmentCarries(packet: Bytes, sent: seq<Bytes>, i: nat)
    requires FragmentsOf(packet, sent) && i < |sent|
    ensures |sent| == Pieces(packet) && Carries(sent[i], Mark(i, |sent|), Chunk(packet, i))
  {
  }

  lemma FirstMissing(r: Assembly, packet: Bytes, sent: seq<Bytes>, kept: seq<bool>)
    requires FragmentsOf(packet, sent) && 0 < |sent| == |kept| && !kept[0]
    ensures AllWellFormed(Arriving(sent, kept, 0))
    ensures var b := r.buffer + Remains(packet, kept, 0);
      Delivered(r, Arriving(sent, kept, 0)) == Assembly(b, if kept[|kept| - 1] then r.decoded + [b] else r.decoded)
    ensures Remains(packet, kept, 0) == Remains(packet, kept, 1)
  {
    hide Carries, Chunk, WellFormed, Received, Pieces, FragmentsOf, Delivered;
    FragmentCarries(packet, sent, 0);
    LossyTail(r, packet, sent, kept, 1);
    assert [] + Arriving(sent, kept, 1) == Arriving(sent, kept, 1);
    assert [] + Remains(packet, kept, 1) == Remains(packet, kept, 1);
  }

  /** Whichever fragments of a frame are lost: the decoder is given what was put
      together from the others if the last one arrives, and nothing otherwise.
      What a lost first fragment should have cleared is still in front of it. */
  lemma LossyFrame(r: Assembly, packet: Bytes, sent: seq<Bytes>, kept: seq<bool>)
    requires FragmentsOf(packet, sent) && packet != [] && |kept| == |sent|
    ensures |sent| > 0 && AllWellFormed(Arriving(sent, kept, 0))
    ensures var b := PutTogether(r, packet, kept);
      Delivered(r, Arriving(sent, kept, 0)) == Assembly(b, if kept[|kept| - 1] then r.decoded + [b] else r.decoded)
  {
    SomeSent(packet, sent);
    hide FragmentsOf, Arriving, Delivered, Remains, Pieces, AllWellFormed;
    if kept[0] {
      FirstArrives(r, packet, sent, kept);
      assert [] + Remains(packet, kept, 0) == Remains(packet, kept, 0);
    } else {
      FirstMissing(r, packet, sent, kept);
    }
  }

  /** No fragment is lost. */
  function AllKept(n: nat): (kept: seq<bool>) {
    seq(n, _ => true)
  }

  lemma {:induction false} AllArrive(sent: seq<Bytes>, i: nat)
    requires i <= |sent|
    ensures Arriving(sent, AllKept(|sent|), i) == sent[i..]
    decreases |sent| - i
  {
    if i < |sent| {
      AllArrive(sent, i + 1);
      assert sent[i..] == [sent[i]] + sent[i + 1..];
    }
  }

  /** The fragments of a packet, in order, make the receiver decode that packet,
      once, whatever it had received before. */
  lemma Reassembled(r: Assembly, packet: Bytes, sent: seq<Bytes>)
    requires FragmentsOf(packet, sent) && packet != []
    ensures AllWellFormed(sent) && Delivered(r, sent) == Assembly(packet, r.decoded + [packet])
  {
    var kept := AllKept(|sent|);
    SomeSent(packet, sent);
    LossyFrame(r, packet, sent, kept);
    AllArrive(sent, 0);
    assert sent[0..] == sent;
    hide Delivered, Arriving, Remains, FragmentsOf, PutTogether, Pieces, AllWellFormed;
    PutTogetherIs(r, packet, kept);
  }

  lemma PutTogetherIs(r: Assembly, packet: Bytes, kept: seq<bool>)
    requires |kept| == Pieces(packet) > 0
    ensures kept[0] ==> (PutTogether(r, packet, kept) == packet <==> false !in kept)
    ensures !kept[0] ==> PutTogether(r, packet, kept) == r.buffer + Remains(packet, kept, 1) && false in kept
  {
    hide Pieces, Chunk;
    RemainsShorter(packet, kept, 0);
    assert kept[0..] == kept;
    ChunksMakeUp(packet);
    if kept[0] {
      assert PutTogether(r, packet, kept) == Remains(packet, kept, 0);
    } else {
      assert Remains(packet, kept, 0) == [] + Remains(packet, kept, 1);
    }
  }

  /** A lossy frame does no harm, that is, it is decoded as it was sent or not
      at all, if and only if its last fragment is lost, none is, or the first
      is and what is left over from before happens to make up for it. */
  lemma LossHarmless(r: Assembly, packet: Bytes, sent: seq<Bytes>, kept: seq<bool>)
    requires FragmentsOf(packet, sent) && packet != [] && |kept| == |sent|
    ensures |sent| > 0 && AllWellFormed(Arriving(sent, kept, 0))
    ensures var d := Delivered(r, Arriving(sent, kept, 0)).decoded;
      && (d == r.decoded <==> !kept[|kept| - 1])
      && (d == r.decoded || d == r.decoded + [packet] <==>
            || !kept[|kept| - 1] || false !in kept
            || (!kept[0] && r.buffer + Remains(packet, kept, 1) == packet))
  {
    LossyFrame(r, packet, sent, kept);
    hide Delivered, Arriving, Remains, FragmentsOf, PutTogether, Pieces, AllWellFormed;
    PutTogetherIs(r, packet, kept);
    var b := PutTogether(r, packet, kept);
    assert (r.decoded + [b])[|r.decoded|] == b && (r.decoded + [packet])[|r.decoded|] == packet;
  }

  // ---------- payloads of other kinds ----------

  /** Header packets and the like, by the kind that they say they are. */
  predicate IsFrame(payload: Bytes)
    requires WellFormed(payload)
  {
    payload[3] / 16 % 4 == 0
  }

  ghost function FramesIn(payloads: seq<Bytes>): (s: seq<Bytes>)
    requires AllWellFormed(payloads)
    ensures AllWellFormed(s)
    decreases |payloads|
  {
    if payloads == [] then [] else (if IsFrame(payloads[0]) then [payloads[0]] else []) + FramesIn(payloads[1..])
  }

  /** Wherever they arrive, between the fragments of a frame or not, they make no difference. */
  lemma {:induction false} OnlyFramesMatter(r: Assembly, payloads: seq<Bytes>)
    requires AllWellFormed(payloads)
    ensures Delivered(r, payloads) == Delivered(r, FramesIn(payloads))
    decreases |payloads|
  {
    if payloads != [] {
      OnlyFramesMatter(Received(r, payloads[0]), payloads[1..]);
      if IsFrame(payloads[0]) {
        assert FramesIn(payloads)[1..] == FramesIn(payloads[1..]);
      } else {
        assert FramesIn(payloads) == FramesIn(payloads[1..]);
      }
    }
  }

  /** So a packet is put together among them. */
  lemma ReassembledAmong(r: Assembly, packet: Bytes, payloads: seq<Bytes>)
    requires AllWellFormed(payloads) && packet != [] && FragmentsOf(packet, FramesIn(payloads))
    ensures Delivered(r, payloads) == Assembly(packet, r.decoded + [packet])
  {
    OnlyFramesMatter(r, payloads);
    Reassembled(r, packet, FramesIn(payloads));
  }

  // ---------- frame after frame ----------

  /** All payloads of some packets, one packet after the other. */
  ghost predicate FramesOf(packets: seq<Bytes>, frames: seq<seq<Bytes>>) {
    |frames| == |packets| && forall i :: 0 <= i < |packets| ==> packets[i] != [] && FragmentsOf(packets[i], frames[i])
  }

  ghost function Joined(frames: seq<seq<Bytes>>): (s: seq<Bytes>) {
    if frames == [] then [] else frames[0] + Joined(frames[1..])
  }

  lemma {:induction false} DeliveredBoth(r: Assembly, a: seq<Bytes>, b: seq<Bytes>)
    requires AllWellFormed(a) && AllWellFormed(b)
    ensures AllWellFormed(a + b) && Delivered(r, a + b) == Delivered(Delivered(r, a), b)
    decreases |a|
  {
    hide WellFormed, Received;
    if a == [] {
      assert a + b == b;
    } else {
      assert (a + b)[1..] == a[1..] + b;
      DeliveredBoth(Received(r, a[0]), a[1..], b);
    }
  }

  /** Consecutive frames are decoded one after the other, also after any
      other traffic, of which arbitrary parts may be lost. */
  lemma {:induction false} FramesReassembled(r: Assembly, noise: seq<Bytes>, packets: seq<Bytes>, frames: seq<seq<Bytes>>)
    requires AllWellFormed(noise) && FramesOf(packets, frames)
    ensures AllWellFormed(noise + Joined(frames))
    ensures Delivered(r, noise + Joined(frames)).decoded == Delivered(r, noise).decoded + packets
    decreases |packets|
  {
    hide FragmentsOf, WellFormed, Received;
    if packets == [] {
      assert noise + Joined(frames) == noise;
    } else {
      Reassembled(Delivered(r, noise), packets[0], frames[0]);
      DeliveredBoth(r, noise, frames[0]);
      FramesReassembled(r, noise + frames[0], packets[1..], frames[1..]);
      assert noise + frames[0] + Joined(frames[1..]) == noise + Joined(frames);
      assert Delivered(r, noise).decoded + [packets[0]] + packets[1..] == Delivered(r, noise).decoded + packets;
    }
  }

  // ---------- what can go wrong ----------

  function Payload(mark: nat, chunk: Bytes): (p: Bytes)
    requires mark < 4 && |chunk| <= PATH_MTU_THEORA
    ensures Carries(p, mark, chunk)
  {
    Header(mark, 0, |chunk|) + chunk + [0, 0]
  }

  /** What is sent when the static buffer is otherwise clear. */
  function Sent(packet: Bytes): (s: seq<Bytes>)
    ensures FragmentsOf(packet, s)
  {
    var n := Pieces(packet);
    seq(n, i requires 0 <= i < n => Payload(Mark(i, n), Chunk(packet, i)))
  }

  /** A packet that takes three fragments. */
  function ThreePieces(x: Byte): (p: Bytes)
    ensures |p| == 3 * PATH_MTU_THEORA && Pieces(p) == 3
  {
    seq(3 * PATH_MTU_THEORA, _ => x)
  }

  lemma RemainsOfThree(p: Bytes, kept: seq<bool>)
    requires Pieces(p) == 3 == |kept|
    ensures Remains(p, kept, 3) == []
    ensures Remains(p, kept, 2) == (if kept[2] then Chunk(p, 2) else []) + []
    ensures Remains(p, kept, 1) == (if kept[1] then Chunk(p, 1) else []) + Remains(p, kept, 2)
    ensures Remains(p, kept, 0) == (if kept[0] then Chunk(p, 0) else []) + Remains(p, kept, 1)
  {
  }

  /** Without its middle fragment, a frame of three is decoded shorter than it was sent. */
  lemma MiddleLost(r: Assembly)
    ensures var p, kept := ThreePieces(1), [true, false, true];
      && AllWellFormed(Arriving(Sent(p), kept, 0))
      && Delivered(r, Arriving(Sent(p), kept, 0)).decoded == r.decoded + [Chunk(p, 0) + Chunk(p, 2)]
      && Chunk(p, 0) + Chunk(p, 2) != p
  {
    var p, kept := ThreePieces(1), [true, false, true];
    hide Sent;
    LossyFrame(r, p, Sent(p), kept);
    RemainsOfThree(p, kept);
    assert |Chunk(p, 0) + Chunk(p, 2)| < |p|;
    hide Chunk;
    assert [] + Remains(p, kept, 2) == Chunk(p, 2);
    assert [] + (Chunk(p, 0) + Chunk(p, 2)) == Chunk(p, 0) + Chunk(p, 2);
  }

  /** Without its first fragment, the rest of a frame is decoded behind all of
      the frame before, which makes the right frame only by chance. */
  lemma FirstLost(before: Bytes, decoded: seq<Bytes>)
    ensures var p, kept, r := ThreePieces(1), [false, true, true], Assembly(before, decoded + [before]);
      && AllWellFormed(Arriving(Sent(p), kept, 0))
      && Delivered(r, Arriving(Sent(p), kept, 0)).decoded == r.decoded + [before + (Chunk(p, 1) + Chunk(p, 2))]
      && (|before| != PATH_MTU_THEORA ==> before + (Chunk(p, 1) + Chunk(p, 2)) != p)
  {
    var p, kept, r := ThreePieces(1), [false, true, true], Assembly(before, decoded + [before]);
    hide Sent;
    LossyFrame(r, p, Sent(p), kept);
    RemainsOfThree(p, kept);
    assert |before + (Chunk(p, 1) + Chunk(p, 2))| == |before| + 2 * PATH_MTU_THEORA;
    hide Chunk;
    assert Chunk(p, 2) + [] == Chunk(p, 2);
    assert [] + Remains(p, kept, 1) == Chunk(p, 1) + Chunk(p, 2);
  }

  /** Without its last fragment, nothing is decoded of a frame. */
  lemma LastLost(r: Assembly)
    ensures var p, kept := ThreePieces(1), [true, true, false];
      && AllWellFormed(Arriving(Sent(p), kept, 0))
      && Delivered(r, Arriving(Sent(p), kept, 0)).decoded == r.decoded
  {
    var p, kept := ThreePieces(1), [true, true, false];
    hide Sent;
    LossyFrame(r, p, Sent(p), kept);
  }
}
