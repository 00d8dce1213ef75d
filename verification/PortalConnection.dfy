/** The portal's connection object: the fields a session lives in while this connection serves it. */
module PortalConnection {
  import opened Common
  import opened ReconnectBuffer

  class Connection {
    const messageKeepTime: int
    var connected: bool
    var messageSeq: nat
    var messageBuffer: seq<Message>
    var pendingMessages: seq<Payload>
    ghost var emitted: seq<Payload>
    ghost var log: seq<Stamp>

    ghost function State(): Session
      reads this
    {
      Session(connected, messageSeq, messageBuffer, pendingMessages, emitted, log)
    }

    constructor (pingInterval: int, pingTimeout: int)
      ensures messageKeepTime == pingInterval + pingTimeout + 1
      ensures State() == OPENED.(connected := false)
    {
      messageKeepTime := pingInterval + pingTimeout + 1;
      connected, messageSeq, messageBuffer, pendingMessages := false, 0, [], [];
      emitted, log := [], [];
    }

    method LoggedIn()
      modifies this
      ensures State() == old(State()).(connected := true)
    {
      connected := true;
    }

    method Disconnected()
      modifies this
      ensures State() == old(State()).(connected := false)
    {
      connected := false;
    }

    method SendMessage(p: Payload, currentTime: int)
      modifies this
      ensures State() == Send(messageKeepTime, old(State()), p, currentTime)
    {
      if connected {
        emitted := emitted + [p];
      } else {
        pendingMessages := pendingMessages + [p];
      }
      messageSeq := messageSeq + 1;
      log := log + [Stamp(p, currentTime)];
      messageBuffer := messageBuffer + [Message(p, messageSeq, Some(currentTime))];
      ghost var s := State();
      while messageBuffer != []
        invariant Evicted(messageKeepTime, currentTime, messageBuffer) == Evicted(messageKeepTime, currentTime, s.buffer)
        invariant State() == s.(buffer := messageBuffer)
        decreases |messageBuffer|
      {
        var front := messageBuffer[0];
        if front.time.Some? && currentTime - front.time.value > messageKeepTime {
          messageBuffer := messageBuffer[1..];
        } else {
          break;
        }
      }
    }

    method DrainPendingMessages(now: int)
      requires connected
      modifies this
      ensures State() == SendAll(messageKeepTime, old(State()), old(pendingMessages), now).(pending := [])
    {
      ghost var s := State();
      for i := 0 to |pendingMessages|
        invariant connected && pendingMessages == s.pending
        invariant State() == SendAll(messageKeepTime, s, s.pending[..i], now)
      {
        assert s.pending[..i + 1][..i] == s.pending[..i];
        SendMessage(pendingMessages[i], now);
      }
      assert s.pending[..|s.pending|] == s.pending;
      pendingMessages := [];
    }

    /** What is left of `relogin` once the ticket is accepted; `handed` is the buffer a client of protocol 1.2 gets. */
    method TakeOver(from: Connection, handsBuffer: bool, now: int) returns (handed: seq<Message>)
      requires from != this
      modifies this
      ensures State() == Relogin(messageKeepTime, handsBuffer, from.State(), now)
      ensures handed == if handsBuffer then Untimed(from.messageBuffer) else []
    {
      pendingMessages, messageSeq := from.pendingMessages, from.messageSeq;
      emitted, log := from.emitted, from.log;
      messageBuffer := Untimed(from.messageBuffer);
      connected := true;
      if handsBuffer {
        handed := messageBuffer;
      } else {
        DrainPendingMessages(now);
        handed := [];
      }
    }
  }
}
