/** One TCP connection to an application: its state, counters and write half. */
module Links {
  import opened Bytes

  datatype ConnectionState = Disconnected | Connected | Waiting

  /** The state of a gateway as a whole. */
  datatype GatewayState = GwWaiting | GwProcessing | GwConnected

  /** How a `write_all` ends: everything written, or an error after `n` bytes went out. */
  datatype WriteOutcome = Wrote | Failed(n: nat)

  /** The value of a link.  `written` is what its application has been sent; `open` is false once the
      write half was shut down or a write failed; `torn` counts the bytes of the write that failed. */
  datatype LinkVal = LinkVal(
    state: ConnectionState, bytesIn: u64, bytesOut: u64, written: bytes, open: bool, torn: nat)

  const NEW_LINK := LinkVal(Disconnected, 0, 0, [], true, 0)

  /** `set_state`: the traffic counters restart on every change of state. */
  function SetState(l: LinkVal, state: ConnectionState): LinkVal {
    l.(state := state, bytesIn := 0, bytesOut := 0)
  }

  function AddIncoming(l: LinkVal, n: nat): LinkVal {
    l.(bytesIn := (l.bytesIn + n) % U64_SIZE)
  }

  /** `send_packet`: only a connected link writes, and a failed write half stays failed. */
  function SendPacket(l: LinkVal, payload: bytes, out: WriteOutcome): LinkVal {
    if l.state != Connected || !l.open then l
    else if out.Failed? && out.n < |payload| then
      l.(written := l.written + payload[..out.n], open := false, torn := out.n)
    else
      l.(written := l.written + payload, bytesOut := (l.bytesOut + |payload|) % U64_SIZE)
  }

  /** `close_connection`: the write half is shut down. */
  function CloseConnection(l: LinkVal): LinkVal {
    l.(open := false, state := Disconnected)
  }

  /** The outgoing counter is exact: it is what the application was sent, less a torn write. */
  predicate CountsOut(l: LinkVal) {
    l.torn <= |l.written| && l.bytesOut == (|l.written| - l.torn) % U64_SIZE && (l.open ==> l.torn == 0)
  }

  lemma ModStep(a: nat, n: nat)
    ensures (a % U64_SIZE + n) % U64_SIZE == (a + n) % U64_SIZE
  {
    var q := a / U64_SIZE;
    assert a == q * U64_SIZE + a % U64_SIZE;
  }

  lemma SendCountsOut(l: LinkVal, payload: bytes, out: WriteOutcome)
    requires CountsOut(l)
    ensures CountsOut(SendPacket(l, payload, out))
  {
    ModStep(|l.written|, |payload|);
  }

  /** The link object; `Val` is the value that the protocol model reasons about. */
  class Link {
    const connectionId: u16
    var state: ConnectionState
    var bytesIn: u64
    var bytesOut: u64
    var written: bytes
    var open: bool
    var torn: nat

    function Val(): LinkVal
      reads this
    {
      LinkVal(state, bytesIn, bytesOut, written, open, torn)
    }

    constructor (connectionId: u16)
      ensures this.connectionId == connectionId && Val() == NEW_LINK
    {
      this.connectionId := connectionId;
      state, bytesIn, bytesOut, written, open, torn := Disconnected, 0, 0, [], true, 0;
    }

    method Send(payload: Option<bytes>, out: WriteOutcome)
      modifies this
      ensures Val() == SendPacket(old(Val()), if payload.Some? then payload.value else [], out)
    {
      if state != Connected {
        return;
      }
      var data := if payload.Some? then payload.value else [];
      if !open {
        return;
      }
      if out.Failed? && out.n < |data| {
        written, open, torn := written + data[..out.n], false, out.n;
      } else {
        written := written + data;
        bytesOut := (bytesOut + |data|) % U64_SIZE;
      }
    }

    method Incoming(n: nat)
      modifies this
      ensures Val() == AddIncoming(old(Val()), n)
    {
      bytesIn := (bytesIn + n) % U64_SIZE;
    }

    method Change(newState: ConnectionState)
      modifies this
      ensures Val() == SetState(old(Val()), newState)
    {
      state := newState;
      bytesIn := 0;
      bytesOut := 0;
    }

    method Shut()
      modifies this
      ensures Val() == CloseConnection(old(Val()))
    {
      open := false;
      state := Disconnected;
    }
  }
}
