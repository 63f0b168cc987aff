/** One connection from its first byte: the two handshake programs, and then the two exchange loops, over two byte
    wires and in every interleaving.  Frames travel only between sides whose keys agree, and both loops start
    on a frame boundary, so that the wires of `Tunnel` can start empty. */
module Admission {
  import opened Bytes
  import opened Packets
  import opened Compression
  import opened Framing
  import opened Auth
  import opened Handshake

  /** What both sides are configured with: zstd, the HMAC, the two keys, and the nonce of this connection. */
  datatype Setting = Setting(z: Zstd, hmac: Hmac, skey: bytes, ckey: bytes, nonce: bytes)

  ghost predicate ValidSetting(g: Setting) {
    Lossless(g.z) && IsHmac(g.hmac) && |g.nonce| == NONCE_SIZE
  }

  /** The keys agree on the nonce. */
  predicate KeysAgree(g: Setting) {
    g.hmac(g.skey, g.nonce) == g.hmac(g.ckey, g.nonce)
  }

  /** `Calling`: nothing sent yet.  `Asked`: waiting for the other side's word.  `Looping`: in the exchange loop. */
  datatype Side = Calling | Asked | Looping | Stopped

  /** `down` and `up` are the bytes in flight.  For the proofs only: `pid` is the packet id of the response, and
      `downFrames` and `upFrames` are the frames sent and not read yet. */
  datatype Dyad = Dyad(
    server: Side, client: Side, down: bytes, up: bytes, pid: u64, downFrames: seq<Message>, upFrames: seq<Message>)

  const NEW_DYAD := Dyad(Calling, Calling, [], [], 0, [], [])

  datatype Turn =
    | Challenges(pid: u64) | Answers(pid: u64) | Pronounces | Concludes
    | ServerSends(m: Message) | ClientSends(m: Message) | ServerReads | ClientReads
    | ServerStops | ClientStops

  /** A program goes on when all it reads has arrived; it may give up at any time. */
  predicate MayTurn(g: Setting, d: Dyad, t: Turn) {
    match t
    case Challenges(_) => d.server.Calling?
    case Answers(pid) => d.client.Calling? && Answer(g.hmac, g.ckey, pid, d.down).ok
    case Pronounces => d.server.Asked? && Pronounce(g.hmac, g.skey, g.nonce, d.up).wrote != []
    case Concludes => d.client.Asked? && Conclude(d.down).ok
    case ServerSends(m) => d.server.Looping? && WellFormed(m)
    case ClientSends(m) => d.client.Looping? && WellFormed(m)
    case ServerReads => d.server.Looping? && ReadPacket(g.z, d.up).Got?
    case ClientReads => d.client.Looping? && ReadPacket(g.z, d.down).Got?
    case ServerStops => true
    case ClientStops => true
  }

  function Rest(ms: seq<Message>): seq<Message> {
    if ms == [] then [] else ms[1..]
  }

  function TakeTurn(g: Setting, d: Dyad, t: Turn): Dyad
    requires MayTurn(g, d, t)
  {
    match t
    case Challenges(pid) => d.(server := Asked, down := d.down + Challenge(pid, g.nonce))
    case Answers(pid) =>
      var a := Answer(g.hmac, g.ckey, pid, d.down);
      d.(client := Asked, up := d.up + a.wrote, down := a.left, pid := pid)
    case Pronounces =>
      var v := Pronounce(g.hmac, g.skey, g.nonce, d.up);
      d.(server := if v.ok then Looping else Stopped, up := v.left, down := d.down + v.wrote)
    case Concludes => d.(client := Looping, down := Conclude(d.down).left)
    case ServerSends(m) => d.(down := d.down + Frame(g.z, m), downFrames := d.downFrames + [m])
    case ClientSends(m) => d.(up := d.up + Frame(g.z, m), upFrames := d.upFrames + [m])
    case ServerReads => d.(up := ReadPacket(g.z, d.up).rest, upFrames := Rest(d.upFrames))
    case ClientReads => d.(down := ReadPacket(g.z, d.down).rest, downFrames := Rest(d.downFrames))
    case ServerStops => d.(server := Stopped)
    case ClientStops => d.(client := Stopped)
  }

  // ----- What is on the wires -----

  function ResponseBytes(g: Setting, pid: u64): bytes {
    Header(NewPacket(GwAuthResponse, pid, 0, RESPONSE_SIZE)) + g.hmac(g.ckey, g.nonce)
  }

  function VerdictBytes(pid: u64, ok: bool): (r: bytes)
    ensures r != []
  {
    if ok then Header(NewPacket(GwConnected, pid, 0, 12)) + VersionBytes()
    else Header(NewPacket(GwDeny, pid, 0, 1)) + [0]
  }

  /** Where the bytes to the client stand: nothing or the challenge; nothing or the verdict, with the frames after
      it; or frames only. */
  ghost predicate DownOk(g: Setting, d: Dyad) {
    match d.client
    case Calling =>
      && !d.server.Looping? && d.downFrames == [] && d.upFrames == [] && d.up == []
      && (d.down == [] || exists pid: u64 :: d.down == Challenge(pid, g.nonce))
    case Asked =>
      && d.upFrames == []
      && if d.server.Asked? || (d.server.Stopped? && d.down == []) then d.down == [] && d.downFrames == []
         else d.down == VerdictBytes(d.pid, KeysAgree(g)) + Frames(g.z, d.downFrames)
    case Looping => !d.server.Asked? && KeysAgree(g) && d.down == Frames(g.z, d.downFrames)
    case Stopped => true
  }

  /** Where the bytes to the server stand: nothing, the response, or frames only. */
  ghost predicate UpOk(g: Setting, d: Dyad) {
    match d.server
    case Calling => d.up == [] && d.down == [] && (d.client.Calling? || d.client.Stopped?)
    case Asked =>
      && d.downFrames == [] && d.upFrames == [] && (d.up == [] || (d.up == ResponseBytes(g, d.pid) && !d.client.Calling?))
    case Looping => KeysAgree(g) && d.up == Frames(g.z, d.upFrames)
    case Stopped => true
  }

  ghost predicate DyadInv(g: Setting, d: Dyad) {
    && DownOk(g, d) && UpOk(g, d) && AllWellFormed(d.downFrames) && AllWellFormed(d.upFrames)
    && (!KeysAgree(g) ==> d.downFrames == [] && d.upFrames == [])
    && (d.server.Calling? ==> d.downFrames == [] && d.upFrames == [])
  }

  // ----- The handshake -----

  lemma NothingToRead(g: Setting)
    ensures forall pid: u64 :: !Answer(g.hmac, g.ckey, pid, []).ok
    ensures Pronounce(g.hmac, g.skey, g.nonce, []).wrote == [] && !Conclude([]).ok
    ensures ReadPacket(g.z, []) == NeedMore
  {
  }

  lemma AnswerKeeps(g: Setting, d: Dyad, pid: u64)
    requires ValidSetting(g) && DyadInv(g, d) && MayTurn(g, d, Answers(pid))
    ensures DyadInv(g, TakeTurn(g, d, Answers(pid)))
  {
    NothingToRead(g);
    var spid: u64 :| d.down == Challenge(spid, g.nonce);
    AnswerToChallenge(g.hmac, g.ckey, g.nonce, spid, pid, []);
    assert Challenge(spid, g.nonce) + [] == Challenge(spid, g.nonce);
    hide Answer, Challenge, Frames, VerdictBytes, AllWellFormed;
    assert [] + ResponseBytes(g, pid) == ResponseBytes(g, pid);
  }

  lemma PronouncedIs(g: Setting, pid: u64)
    requires ValidSetting(g)
    ensures Pronounce(g.hmac, g.skey, g.nonce, ResponseBytes(g, pid)) == Verdict(KeysAgree(g), VerdictBytes(pid, KeysAgree(g)), [])
  {
    var response := g.hmac(g.ckey, g.nonce);
    assert |response| == RESPONSE_SIZE;
    PronounceOnAnswer(g.hmac, g.skey, g.nonce, pid, response, []);
    assert ResponseBytes(g, pid) + [] == ResponseBytes(g, pid);
    hide Pronounce, Header, VersionBytes;
  }

  lemma PronounceKeeps(g: Setting, d: Dyad)
    requires ValidSetting(g) && DyadInv(g, d) && MayTurn(g, d, Pronounces)
    ensures DyadInv(g, TakeTurn(g, d, Pronounces))
    ensures TakeTurn(g, d, Pronounces).server.Looping? <==> KeysAgree(g)
  {
    NothingToRead(g);
    hide Pronounce, Answer, Conclude, VerdictBytes, ResponseBytes, Challenge, AllWellFormed, KeysAgree;
    assert d.up == ResponseBytes(g, d.pid);
    PronouncedIs(g, d.pid);
    assert Frames(g.z, []) == [];
    hide Frames;
    var wrote := VerdictBytes(d.pid, KeysAgree(g));
    assert wrote + [] == wrote && [] + wrote == wrote;
  }

  lemma ConcludeKeeps(g: Setting, d: Dyad)
    requires DyadInv(g, d) && MayTurn(g, d, Concludes)
    ensures DyadInv(g, TakeTurn(g, d, Concludes)) && KeysAgree(g)
  {
    NothingToRead(g);
    ConcludeOnVerdict(d.pid, KeysAgree(g), Frames(g.z, d.downFrames));
    hide Conclude, VersionBytes, Header, Challenge, AllWellFormed, Frames;
  }

  // ----- Frames -----

  lemma SendKeeps(z: Zstd, ms: seq<Message>, m: Message, before: bytes)
    requires AllWellFormed(ms) && WellFormed(m)
    ensures AllWellFormed(ms + [m])
    ensures before + Frames(z, ms) + Frame(z, m) == before + Frames(z, ms + [m])
    ensures Frames(z, ms) + Frame(z, m) == Frames(z, ms + [m])
  {
    FramesAppend(z, ms, m);
    hide Frame, Frames, WellFormed;
  }

  /** A loop whose wire holds frames only reads exactly the next one, and none when there is none. */
  lemma ReadsNext(z: Zstd, ms: seq<Message>)
    requires Lossless(z) && AllWellFormed(ms)
    ensures ReadPacket(z, Frames(z, ms)).Got? <==> ms != []
    ensures ms != [] ==>
              ReadPacket(z, Frames(z, ms)) == Got(Seen(z, ms[0]).packet, Seen(z, ms[0]).data, Frames(z, ms[1..]))
    ensures AllWellFormed(Rest(ms))
  {
    if ms == [] {
      assert ReadPacket(z, []) == NeedMore;
    } else {
      FrameRoundTrip(z, ms[0], Frames(z, ms[1..]));
      hide Frame, ReadPacket, Seen, WellFormed;
    }
  }

  lemma LoopKeeps(g: Setting, d: Dyad, t: Turn)
    requires ValidSetting(g) && DyadInv(g, d) && MayTurn(g, d, t)
    requires t.ServerSends? || t.ClientSends? || t.ServerReads? || t.ClientReads?
    ensures DyadInv(g, TakeTurn(g, d, t)) && KeysAgree(g)
  {
    hide Answer, Pronounce, Conclude, Challenge, VerdictBytes, ResponseBytes, Frame, Frames, ReadPacket, WellFormed, AllWellFormed;
    match t
    case ServerSends(m) => SendKeeps(g.z, d.downFrames, m, VerdictBytes(d.pid, KeysAgree(g)));
    case ClientSends(m) => SendKeeps(g.z, d.upFrames, m, []);
    case ServerReads => ReadsNext(g.z, d.upFrames);
    case ClientReads => ReadsNext(g.z, d.downFrames);
  }

  lemma TurnKeeps(g: Setting, d: Dyad, t: Turn)
    requires ValidSetting(g) && DyadInv(g, d) && MayTurn(g, d, t)
    ensures DyadInv(g, TakeTurn(g, d, t))
    ensures t.ServerSends? || t.ClientSends? || t.ServerReads? || t.ClientReads? ==> KeysAgree(g)
    ensures t.Pronounces? ==> (TakeTurn(g, d, t).server.Looping? <==> KeysAgree(g))
  {
    match t
    case Challenges(pid) => ChallengeKeeps(g, d, pid);
    case Answers(pid) => AnswerKeeps(g, d, pid);
    case Pronounces => PronounceKeeps(g, d);
    case Concludes => ConcludeKeeps(g, d);
    case ServerStops => StopKeeps(g, d);
    case ClientStops => StopKeeps(g, d);
    case _ => LoopKeeps(g, d, t);
  }

  lemma ChallengeKeeps(g: Setting, d: Dyad, pid: u64)
    requires DyadInv(g, d) && d.server.Calling?
    ensures DyadInv(g, TakeTurn(g, d, Challenges(pid)))
  {
    hide Challenge, AllWellFormed, Frames, VerdictBytes;
    assert [] + Challenge(pid, g.nonce) == Challenge(pid, g.nonce);
  }

  lemma StopKeeps(g: Setting, d: Dyad)
    requires DyadInv(g, d)
    ensures DyadInv(g, TakeTurn(g, d, ServerStops)) && DyadInv(g, TakeTurn(g, d, ClientStops))
  {
    hide Challenge, AllWellFormed, Frames, VerdictBytes;
  }

  // ----- Runs -----

  ghost predicate IsDyadRun(g: Setting, run: seq<Dyad>, turns: seq<Turn>) {
    && ValidSetting(g) && |run| == |turns| + 1 && run[0] == NEW_DYAD
    && forall i :: 0 <= i < |turns| ==> MayTurn(g, run[i], turns[i]) && run[i + 1] == TakeTurn(g, run[i], turns[i])
  }

  lemma {:induction false} DyadRunInv(g: Setting, run: seq<Dyad>, turns: seq<Turn>, i: nat)
    requires IsDyadRun(g, run, turns) && i < |run|
    ensures DyadInv(g, run[i])
  {
    hide MayTurn, TakeTurn, DyadInv;
    if i > 0 {
      DyadRunInv(g, run, turns, i - 1);
      TurnKeeps(g, run[i - 1], turns[i - 1]);
    } else {
      StartDyad(g);
    }
  }

  lemma StartDyad(g: Setting)
    ensures DyadInv(g, NEW_DYAD)
  {
  }

  /** In every interleaving of the two programs on one connection: a side is in its loop, and a frame is sent or read,
      only if the keys agree on the nonce; and a loop that reads finds exactly the next frame sent to it. */
  lemma FramesOnlyAfterAgreement(g: Setting, run: seq<Dyad>, turns: seq<Turn>, i: nat)
    requires IsDyadRun(g, run, turns) && i < |run|
    ensures run[i].server.Looping? || run[i].client.Looping? || run[i].downFrames != [] || run[i].upFrames != [] ==> KeysAgree(g)
    ensures i < |turns| && (turns[i].ServerSends? || turns[i].ClientSends? || turns[i].ServerReads? || turns[i].ClientReads?) ==>
              KeysAgree(g)
    ensures i < |turns| && turns[i].Pronounces? ==> (run[i + 1].server.Looping? <==> KeysAgree(g))
    ensures run[i].server.Looping? ==> run[i].up == Frames(g.z, run[i].upFrames)
    ensures run[i].client.Looping? ==> run[i].down == Frames(g.z, run[i].downFrames)
    ensures run[i].server.Looping? ==>
              var us := run[i].upFrames;
              if us == [] then !MayTurn(g, run[i], ServerReads)
              else ReadPacket(g.z, run[i].up) == Got(Seen(g.z, us[0]).packet, Seen(g.z, us[0]).data, Frames(g.z, us[1..]))
    ensures run[i].client.Looping? ==>
              var ds := run[i].downFrames;
              if ds == [] then !MayTurn(g, run[i], ClientReads)
              else ReadPacket(g.z, run[i].down) == Got(Seen(g.z, ds[0]).packet, Seen(g.z, ds[0]).data, Frames(g.z, ds[1..]))
  {
    DyadRunInv(g, run, turns, i);
    var d := run[i];
    if i < |turns| {
      assert run[i + 1] == TakeTurn(g, d, turns[i]);
      TurnKeeps(g, d, turns[i]);
    }
    ReadsNext(g.z, d.upFrames);
    ReadsNext(g.z, d.downFrames);
    hide Frames, ReadPacket, Seen, AllWellFormed, TakeTurn, Answer, Pronounce, Conclude, VerdictBytes, ResponseBytes, Challenge, IsDyadRun;
  }
}
