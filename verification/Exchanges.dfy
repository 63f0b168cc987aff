/** What the client's exchange loop makes of a stream of frames: what it answers, and which links it ends up with. */
module Exchanges {
  import opened Bytes
  import opened Packets
  import opened Compression
  import opened Framing
  import opened Links
  import opened Gateways
  import opened GatewayClients

  // ----- Up to a refusal -----

  /** The loop ends at a `GwDeny`; what comes after it is not read. */
  function Heard(ms: seq<Message>): (r: seq<Message>)
    ensures r <= ms
    ensures |r| < |ms| ==> ms[|r|].packet.ptype.GwDeny?
    ensures forall i :: 0 <= i < |r| ==> !r[i].packet.ptype.GwDeny?
  {
    if ms == [] || ms[0].packet.ptype.GwDeny? then [] else [ms[0]] + Heard(ms[1..])
  }

  lemma {:induction false} ExchangesHeard(z: Zstd, v: Ledger, ms: seq<Message>, lucks: nat -> Luck, n: nat)
    requires Lossless(z) && AllWellFormed(ms)
    ensures Exchanged(z, v, Frames(z, ms), lucks, n) == Exchanged(z, v, Frames(z, Heard(ms)), lucks, n)
    decreases |ms|
  {
    hide Exchanged, Handled, Seen, Frames;
    if ms == [] {
    } else if ms[0].packet.ptype.GwDeny? {
      RefusalEnds(z, v, ms, lucks, n);
      NothingExchanged(z, v, lucks, n);
    } else {
      RestWellFormed(ms);
      ExchangesHeard(z, Handled(v, Seen(z, ms[0]), lucks(n)), ms[1..], lucks, n + 1);
      ExchangedFirst(z, v, ms, lucks, n);
      assert Heard(ms)[1..] == Heard(ms[1..]);
      ExchangedFirst(z, v, Heard(ms), lucks, n);
    }
  }

  lemma RefusalEnds(z: Zstd, v: Ledger, ms: seq<Message>, lucks: nat -> Luck, n: nat)
    requires Lossless(z) && AllWellFormed(ms) && ms != [] && ms[0].packet.ptype.GwDeny?
    ensures Exchanged(z, v, Frames(z, ms), lucks, n) == v
  {
    FrameRoundTrip(z, ms[0], Frames(z, ms[1..]));
    hide Frame, ReadPacket, OnWire, Handled;
  }

  // ----- What is answered -----

  /** What a request is to be answered with: `Pong` to `Ping`; `Opened` to an `Open` whose application was reached, and
      `OpenFail` to any other, under the id of the link. */
  function Answers(ms: seq<Message>, lucks: nat -> Luck, n: nat): seq<(PacketType, u16)> {
    if ms == [] then [] else
      (match ms[0].packet.ptype
       case Ping => [(Pong, 0)]
       case Open => [(if lucks(n).reached then Opened else OpenFail, ms[0].packet.linkId)]
       case _ => [])
      + Answers(ms[1..], lucks, n + 1)
  }

  /** Answers as messages, under consecutive packet ids. */
  function Replies(pid: u64, answers: seq<(PacketType, u16)>): (r: seq<Message>)
    ensures |r| == |answers|
    ensures forall k :: 0 <= k < |r| ==> r[k] == Message(NewPacket(answers[k].0, Add64(pid, k + 1), answers[k].1, 0), None)
  {
    seq(|answers|, k requires 0 <= k < |answers| => Message(NewPacket(answers[k].0, Add64(pid, k + 1), answers[k].1, 0), None))
  }

  /** Two writes of a stream are one write of both, however much of it gets through. */
  lemma AttemptTwice(sent: bytes, room: Option<nat>, a: bytes, b: bytes)
    ensures Attempt(Attempt(sent, room, a), RoomAfter(room, |a|), b) == Attempt(sent, room, a + b)
    ensures RoomAfter(RoomAfter(room, |a|), |b|) == RoomAfter(room, |a + b|)
  {
    if room.Some? {
      if |a| <= room.value {
        if |a + b| > room.value {
          assert (a + b)[..room.value] == a + b[..room.value - |a|];
        }
      } else {
        assert (a + b)[..room.value] == a[..room.value];
      }
    }
  }

  lemma RepliesConcat(pid: u64, a: seq<(PacketType, u16)>, b: seq<(PacketType, u16)>)
    ensures Replies(pid, a + b) == Replies(pid, a) + Replies(Add64(pid, |a|), b)
  {
    hide Add64;
    forall k | 0 <= k < |a + b|
      ensures Replies(pid, a + b)[k] == (Replies(pid, a) + Replies(Add64(pid, |a|), b))[k]
    {
      if k >= |a| {
        Add64Twice(pid, |a|, k - |a| + 1);
      }
    }
  }

  /** `v'` is `v` after these answers were sent, as far as they got through. */
  ghost predicate Sent(z: Zstd, v: Ledger, answers: seq<(PacketType, u16)>, v': Ledger) {
    var b := Frames(z, Replies(v.pid, answers));
    && v'.sent == Attempt(v.sent, v.room, b) && v'.room == RoomAfter(v.room, |b|)
    && v'.pid == Add64(v.pid, |answers|)
  }

  lemma SentNothing(z: Zstd, v: Ledger, v': Ledger)
    requires v'.sent == v.sent && v'.room == v.room && v'.pid == v.pid
    ensures Sent(z, v, [], v')
  {
    assert Replies(v.pid, []) == [];
    assert v.sent + [] == v.sent;
  }

  lemma SentTwice(z: Zstd, v: Ledger, a: seq<(PacketType, u16)>, v1: Ledger, b: seq<(PacketType, u16)>, v2: Ledger)
    requires Sent(z, v, a, v1) && Sent(z, v1, b, v2)
    ensures Sent(z, v, a + b, v2)
  {
    hide Frames, Attempt, RoomAfter, Add64;
    RepliesConcat(v.pid, a, b);
    FramesConcat(z, Replies(v.pid, a), Replies(v1.pid, b));
    AttemptTwice(v.sent, v.room, Frames(z, Replies(v.pid, a)), Frames(z, Replies(v1.pid, b)));
    Add64Twice(v.pid, |a|, |b|);
  }

  lemma ReplySent(z: Zstd, v: Ledger, ptype: PacketType, id: u16)
    ensures Sent(z, v, [(ptype, id)], Reply(v, ptype, id))
  {
    var m := Message(NewPacket(ptype, Add64(v.pid, 1), id, 0), None);
    assert Replies(v.pid, [(ptype, id)]) == [m];
    assert Frames(z, [m]) == Frame(z, m) + Frames(z, [m][1..]);
    assert Frame(z, m) == Header(m.packet);
  }

  lemma HandledSent(z: Zstd, v: Ledger, ms: seq<Message>, lucks: nat -> Luck, n: nat) returns (first: seq<(PacketType, u16)>)
    requires ms != []
    ensures Answers(ms, lucks, n) == first + Answers(ms[1..], lucks, n + 1)
    ensures Sent(z, v, first, Handled(v, Seen(z, ms[0]), lucks(n)))
  {
    hide Sent, Reply, Seen;
    var v1 := Handled(v, Seen(z, ms[0]), lucks(n));
    var id := ms[0].packet.linkId;
    match ms[0].packet.ptype
    case Ping =>
      first := [(Pong, 0)];
      ReplySent(z, v, Pong, 0);
    case Open =>
      var w := v.(links := if lucks(n).reached then v.links[id := SetState(NEW_LINK, Connected)] else v.links);
      first := [(if lucks(n).reached then Opened else OpenFail, id)];
      ReplySent(z, w, first[0].0, id);
      SameSent(z, w, v, first, v1);
    case _ =>
      first := [];
      SentNothing(z, v, v1);
  }

  lemma SameSent(z: Zstd, w: Ledger, v: Ledger, answers: seq<(PacketType, u16)>, v': Ledger)
    requires Sent(z, w, answers, v') && w.sent == v.sent && w.room == v.room && w.pid == v.pid
    ensures Sent(z, v, answers, v')
  {
  }

  lemma {:induction false} AllSent(z: Zstd, v: Ledger, ms: seq<Message>, lucks: nat -> Luck, n: nat)
    requires Lossless(z) && AllWellFormed(ms) && forall i :: 0 <= i < |ms| ==> !ms[i].packet.ptype.GwDeny?
    ensures Sent(z, v, Answers(ms, lucks, n), Exchanged(z, v, Frames(z, ms), lucks, n))
    decreases |ms|
  {
    hide Exchanged, Handled, Seen, Frames, Sent, Answers, AllWellFormed;
    if ms == [] {
      NothingExchanged(z, v, lucks, n);
      NoAnswers(lucks, n);
      SentNothing(z, v, v);
    } else {
      var v1 := Handled(v, Seen(z, ms[0]), lucks(n));
      RestWellFormed(ms);
      ExchangedFirst(z, v, ms, lucks, n);
      var first := HandledSent(z, v, ms, lucks, n);
      AllSent(z, v1, ms[1..], lucks, n + 1);
      SentTwice(z, v, first, v1, Answers(ms[1..], lucks, n + 1), Exchanged(z, v, Frames(z, ms), lucks, n));
    }
  }

  lemma NoAnswers(lucks: nat -> Luck, n: nat)
    ensures Answers([], lucks, n) == []
  {
  }

  lemma RepliesReadBack(z: Zstd, rs: seq<Message>, b: bytes)
    requires Lossless(z) && b <= Frames(z, rs)
    requires forall k :: 0 <= k < |rs| ==> rs[k].data.None? && rs[k].packet.flags == 0 && rs[k].packet.dataSize == 0
    ensures ReadAll(z, b).0 <= rs && (b == Frames(z, rs) ==> ReadAll(z, b) == (rs, []))
  {
    assert AllWellFormed(rs);
    StreamPrefixRoundTrip(z, rs, b);
    StreamRoundTrip(z, rs);
    assert SeenAll(z, rs) == rs;
    hide ReadAll, Frames;
  }

  /** Whatever stream of frames the server sends, in any mixture: what the client appends to its side, read back, is exactly
      one answer to each request heard, in order, under consecutive packet ids; and if its side of the stream
      fails, the first of these and nothing else. */
  lemma EachRequestAnswered(z: Zstd, v: Ledger, ms: seq<Message>, lucks: nat -> Luck, n: nat)
    requires Lossless(z) && AllWellFormed(ms)
    ensures var rs := Replies(v.pid, Answers(Heard(ms), lucks, n));
      var v' := Exchanged(z, v, Frames(z, ms), lucks, n);
      && v.sent <= v'.sent && ReadAll(z, v'.sent[|v.sent|..]).0 <= rs
      && (Fits(v.room, 16 * |rs|) ==> ReadAll(z, v'.sent[|v.sent|..]) == (rs, []))
  {
    var hs := Heard(ms);
    var rs := Replies(v.pid, Answers(hs, lucks, n));
    var v' := Exchanged(z, v, Frames(z, ms), lucks, n);
    ExchangesHeard(z, v, ms, lucks, n);
    AllSent(z, v, hs, lucks, n);
    RepliesSize(z, rs);
    var b := Frames(z, rs);
    assert v'.sent == Attempt(v.sent, v.room, b);
    hide Exchanged, ReadAll, Frames, Answers, Add64;
    RepliesReadBack(z, rs, v'.sent[|v.sent|..]);
  }

  lemma {:induction false} RepliesSize(z: Zstd, rs: seq<Message>)
    requires forall k :: 0 <= k < |rs| ==> rs[k].data.None?
    ensures |Frames(z, rs)| == 16 * |rs|
  {
    hide Header;
    if rs != [] {
      RepliesSize(z, rs[1..]);
    }
  }

  // ----- Which links there are -----

  predicate OpensAt(ms: seq<Message>, lucks: nat -> Luck, n: nat, i: nat, id: u16) {
    i < |ms| && ms[i].packet.ptype.Open? && ms[i].packet.linkId == id && lucks(n + i).reached
  }

  /** No `Close` for the id from message `i` on. */
  predicate NotClosed(ms: seq<Message>, i: nat, id: u16) {
    forall j :: i <= j < |ms| ==> !(ms[j].packet.ptype.Close? && ms[j].packet.linkId == id)
  }

  /** The id was opened, or there to begin with, and has not been closed since. */
  ghost predicate StillOpen(links: set<u16>, ms: seq<Message>, lucks: nat -> Luck, n: nat, id: u16) {
    (id in links && NotClosed(ms, 0, id)) || exists i: nat :: OpensAt(ms, lucks, n, i, id) && NotClosed(ms, i, id)
  }

  lemma StillOpenFirst(links: set<u16>, ms: seq<Message>, lucks: nat -> Luck, n: nat, id: u16)
    requires ms != []
    ensures var m := ms[0].packet;
      var links' := if m.ptype.Close? then links - {m.linkId} else if m.ptype.Open? && lucks(n).reached then links + {m.linkId} else links;
      StillOpen(links, ms, lucks, n, id) <==> StillOpen(links', ms[1..], lucks, n + 1, id)
  {
    var m := ms[0].packet;
    var links' := if m.ptype.Close? then links - {m.linkId} else if m.ptype.Open? && lucks(n).reached then links + {m.linkId} else links;
    forall i: nat | i < |ms| - 1
      ensures OpensAt(ms, lucks, n, i + 1, id) == OpensAt(ms[1..], lucks, n + 1, i, id)
      ensures NotClosed(ms, i + 1, id) == NotClosed(ms[1..], i, id)
    {
      ShiftedClose(ms, i, id);
    }
    ShiftedClose(ms, 0, id);
    if StillOpen(links, ms, lucks, n, id) && !(id in links && NotClosed(ms, 0, id)) {
      var i: nat :| OpensAt(ms, lucks, n, i, id) && NotClosed(ms, i, id);
      if i > 0 {
        assert OpensAt(ms[1..], lucks, n + 1, i - 1, id) && NotClosed(ms[1..], i - 1, id);
      }
    }
    if StillOpen(links', ms[1..], lucks, n + 1, id) {
      if id in links' && NotClosed(ms[1..], 0, id) {
        assert OpensAt(ms, lucks, n, 0, id) ==> NotClosed(ms, 0, id);
      } else {
        var i: nat :| OpensAt(ms[1..], lucks, n + 1, i, id) && NotClosed(ms[1..], i, id);
        assert OpensAt(ms, lucks, n, i + 1, id) && NotClosed(ms, i + 1, id);
      }
    }
  }

  lemma ShiftedClose(ms: seq<Message>, i: nat, id: u16)
    requires ms != []
    ensures NotClosed(ms, i + 1, id) == NotClosed(ms[1..], i, id)
  {
    if NotClosed(ms[1..], i, id) {
      forall j | i + 1 <= j < |ms| ensures !(ms[j].packet.ptype.Close? && ms[j].packet.linkId == id) {
        assert ms[1..][j - 1] == ms[j];
      }
    }
  }

  lemma HandledKeys(z: Zstd, v: Ledger, m: Message, luck: Luck)
    ensures Handled(v, Seen(z, m), luck).links.Keys ==
      if m.packet.ptype.Close? then v.links.Keys - {m.packet.linkId}
      else if m.packet.ptype.Open? && luck.reached then v.links.Keys + {m.packet.linkId}
      else v.links.Keys
  {
    hide Seen;
  }

  lemma {:induction false} AllOpen(z: Zstd, v: Ledger, ms: seq<Message>, lucks: nat -> Luck, n: nat, id: u16)
    requires Lossless(z) && AllWellFormed(ms) && forall i :: 0 <= i < |ms| ==> !ms[i].packet.ptype.GwDeny?
    ensures id in Exchanged(z, v, Frames(z, ms), lucks, n).links <==> StillOpen(v.links.Keys, ms, lucks, n, id)
    decreases |ms|
  {
    hide Exchanged, Handled, Seen, Frames, AllWellFormed;
    if ms == [] {
      NothingExchanged(z, v, lucks, n);
    } else {
      var v1 := Handled(v, Seen(z, ms[0]), lucks(n));
      RestWellFormed(ms);
      ExchangedFirst(z, v, ms, lucks, n);
      HandledKeys(z, v, ms[0], lucks(n));
      AllOpen(z, v1, ms[1..], lucks, n + 1, id);
      StillOpenFirst(v.links.Keys, ms, lucks, n, id);
      hide StillOpen;
    }
  }

  /** Whatever stream of frames the server sends: at the end the client has exactly the links that it had or opened, and
      that were not closed since. */
  lemma LinksAreThoseOpen(z: Zstd, v: Ledger, ms: seq<Message>, lucks: nat -> Luck, n: nat, id: u16)
    requires Lossless(z) && AllWellFormed(ms)
    ensures id in Exchanged(z, v, Frames(z, ms), lucks, n).links <==> StillOpen(v.links.Keys, Heard(ms), lucks, n, id)
  {
    ExchangesHeard(z, v, ms, lucks, n);
    AllOpen(z, v, Heard(ms), lucks, n, id);
  }

  // ----- What a newly opened link gets -----

  lemma {:induction false} ExchangedOn(z: Zstd, v: Ledger, a: seq<Message>, b: seq<Message>, lucks: nat -> Luck, n: nat)
    requires Lossless(z) && AllWellFormed(a + b) && forall i :: 0 <= i < |a| ==> !a[i].packet.ptype.GwDeny?
    ensures Exchanged(z, v, Frames(z, a + b), lucks, n)
            == Exchanged(z, Exchanged(z, v, Frames(z, a), lucks, n), Frames(z, b), lucks, n + |a|)
    decreases |a|
  {
    hide Exchanged, Handled, Seen, Frames;
    if a == [] {
      assert a + b == b;
      NothingExchanged(z, v, lucks, n);
    } else {
      var v1 := Handled(v, Seen(z, a[0]), lucks(n));
      assert (a + b)[1..] == a[1..] + b;
      RestWellFormed(a + b);
      LeftWellFormed(a, b);
      ExchangedFirst(z, v, a + b, lucks, n);
      ExchangedFirst(z, v, a, lucks, n);
      ExchangedOn(z, v1, a[1..], b, lucks, n + 1);
    }
  }

  lemma LeftWellFormed(a: seq<Message>, b: seq<Message>)
    requires AllWellFormed(a + b)
    ensures AllWellFormed(a) && AllWellFormed(b)
  {
    forall i | 0 <= i < |a| ensures WellFormed(a[i]) {
      assert (a + b)[i] == a[i];
    }
    forall i | 0 <= i < |b| ensures WellFormed(b[i]) {
      assert (a + b)[|a| + i] == b[i];
    }
  }

  /** The application of a link that is opened within a stream, whatever came before, is connected and gets exactly the
      payloads for it that follow, until the link is opened again or closed. */
  lemma OpenedGetsItsData(z: Zstd, v: Ledger, ms: seq<Message>, i: nat, id: u16, lucks: nat -> Luck, n: nat)
    requires Lossless(z) && AllWellFormed(ms) && |Heard(ms)| > i && OpensAt(ms, lucks, n, i, id)
    requires forall j :: i < j < |ms| ==> LeavesAlone(ms[j], id)
    requires forall j :: n + i < j < n + |ms| ==> lucks(j).out.Wrote?
    ensures var v' := Exchanged(z, v, Frames(z, ms), lucks, n);
      && id in v'.links && v'.links[id].state.Connected? && v'.links[id].open
      && v'.links[id].written == DataFor(ms[i + 1..], id)
      && v'.links[id].bytesOut == |DataFor(ms[i + 1..], id)| % U64_SIZE
  {
    hide Exchanged, Handled, Seen, Frames, AllWellFormed, DataFor, Heard, Add64, LeavesAlone;
    var v2 := Reopened(z, v, ms, i, id, lucks, n);
    var b := ms[i + 1..];
    assert forall j :: 0 <= j < |b| ==> b[j] == ms[i + 1 + j];
    OwnDataOnly(z, v2, b, id, lucks, n + i + 1);
    FromZero(|DataFor(b, id)|);
  }

  /** The link as the `Open` leaves it, and the stream from there on. */
  lemma Reopened(z: Zstd, v: Ledger, ms: seq<Message>, i: nat, id: u16, lucks: nat -> Luck, n: nat) returns (v2: Ledger)
    requires Lossless(z) && AllWellFormed(ms) && |Heard(ms)| > i && OpensAt(ms, lucks, n, i, id)
    ensures Exchanged(z, v, Frames(z, ms), lucks, n) == Exchanged(z, v2, Frames(z, ms[i + 1..]), lucks, n + i + 1)
    ensures AllWellFormed(ms[i + 1..]) && id in v2.links && v2.links[id].state.Connected? && v2.links[id].open
    ensures v2.links[id].written == [] && v2.links[id].bytesOut == 0
  {
    hide Exchanged, Frames, AllWellFormed;
    var a, b := ms[..i], ms[i..];
    assert a + b == ms && b[0] == ms[i] && b[1..] == ms[i + 1..];
    assert forall j :: 0 <= j < i ==> a[j] == Heard(ms)[j];
    hide Heard;
    v2 := OpensAfter(z, v, a, b, lucks, n);
  }

  lemma OpensAfter(z: Zstd, v: Ledger, a: seq<Message>, b: seq<Message>, lucks: nat -> Luck, n: nat) returns (v2: Ledger)
    requires Lossless(z) && AllWellFormed(a + b) && b != [] && forall i :: 0 <= i < |a| ==> !a[i].packet.ptype.GwDeny?
    requires b[0].packet.ptype.Open? && lucks(n + |a|).reached
    ensures Exchanged(z, v, Frames(z, a + b), lucks, n) == Exchanged(z, v2, Frames(z, b[1..]), lucks, n + |a| + 1)
    ensures var id := b[0].packet.linkId;
      && AllWellFormed(b[1..]) && id in v2.links && v2.links[id].state.Connected? && v2.links[id].open
      && v2.links[id].written == [] && v2.links[id].bytesOut == 0
  {
    hide Exchanged, Handled, Seen, Frames, AllWellFormed;
    LeftWellFormed(a, b);
    RestWellFormed(b);
    ExchangedOn(z, v, a, b, lucks, n);
    var v1 := Exchanged(z, v, Frames(z, a), lucks, n);
    ExchangedFirst(z, v1, b, lucks, n + |a|);
    OpenHandled(z, v1, b[0], lucks(n + |a|));
    v2 := Handled(v1, Seen(z, b[0]), lucks(n + |a|));
  }

  lemma FromZero(n: nat)
    ensures Add64(0, n) == n % U64_SIZE
  {
  }

  lemma OpenHandled(z: Zstd, v: Ledger, m: Message, luck: Luck)
    requires m.packet.ptype.Open? && luck.reached
    ensures var v' := Handled(v, Seen(z, m), luck); var id := m.packet.linkId;
      && id in v'.links && v'.links[id].state.Connected? && v'.links[id].open && v'.links[id].written == []
      && v'.links[id].bytesOut == 0
  {
    hide Seen;
  }
}
