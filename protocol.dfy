/** The lifecycle gating and queue access that both transport roles inherit
    from AbstractTransmissionProtocol: the three guards, the destructive drain
    of the inbound queue and the append to the outbound queue. */
module Protocol {

  /** What an operation can fail with. The first four are the
      InvalidOperationExceptions thrown by the lifecycle guards; ConnectFailed
      and BindFailed stand for the socket layer's exceptions; NullSocket is the
      null-reference failure of disposing a socket that was never created. */
  datatype Error =
    | AlreadyStarted
    | AlreadyStopped
    | ConnectionClosed
    | NotOpened
    | ConnectFailed
    | BindFailed
    | NullSocket
  {
    predicate IsLifecycle() {
      AlreadyStarted? || AlreadyStopped? || ConnectionClosed? || NotOpened?
    }

    /** The exception message the guards use. */
    function Message(): string
      requires IsLifecycle()
    {
      if AlreadyStarted? then "Connection has already started"
      else if AlreadyStopped? then "Connection has already stopped"
      else if ConnectionClosed? then "Connection has been closed."
      else "Connection has not been opened."
    }
  }

  datatype Option<T> = None | Some(value: T)

  datatype Result<T> = Ok(value: T) | Err(error: Error)

  /** The outcome of one operation on a state of type S: what the operation
      reports to its caller, and the state it leaves behind. */
  datatype Step<S, T> = Step(result: Result<T>, next: S)

  /** The guard of StartAsync: it looks at BeenOpened only. */
  function StartCheck(beenOpened: bool): Option<Error>
  {
    if beenOpened then Some(AlreadyStarted) else None
  }

  /** The guard of StopAsync: it looks at BeenClosed only. */
  function StopCheck(beenClosed: bool): Option<Error>
  {
    if beenClosed then Some(AlreadyStopped) else None
  }

  /** ValidateSocket, the guard of GetPackets and SendPacket. */
  function ValidateSocket(beenOpened: bool, beenClosed: bool): (r: Option<Error>)
    ensures r.None? <==> beenOpened && !beenClosed
    ensures beenClosed ==> r == Some(ConnectionClosed)
    ensures !beenClosed && !beenOpened ==> r == Some(NotOpened)
    ensures r.Some? ==> r.value.IsLifecycle()
  {
    if beenClosed then Some(ConnectionClosed)
    else if !beenOpened then Some(NotOpened)
    else None
  }

  /** What GetPackets reports, and the inbound queue it leaves. */
  function DrainInbound(beenOpened: bool, beenClosed: bool, inbound: seq<string>): (r: Step<seq<string>, seq<string>>)
    ensures r.result.Ok? <==> beenOpened && !beenClosed
    ensures r.result.Err? ==> r.next == inbound && Some(r.result.error) == ValidateSocket(beenOpened, beenClosed)
    ensures r.result.Ok? ==> r.result.value == inbound && r.next == []
  {
    match ValidateSocket(beenOpened, beenClosed)
    case Some(e) => Step(Err(e), inbound)
    case None => Step(Ok(inbound), [])
  }

  /** What SendPacket reports, and the outbound queue it leaves. */
  function EnqueueOutbound(beenOpened: bool, beenClosed: bool, outbound: seq<string>, packet: string): (r: Step<seq<string>, ()>)
    ensures r.result.Ok? <==> beenOpened && !beenClosed
    ensures r.result.Err? ==> r.next == outbound && Some(r.result.error) == ValidateSocket(beenOpened, beenClosed)
    ensures r.result.Ok? ==> r.next == outbound + [packet]
  {
    match ValidateSocket(beenOpened, beenClosed)
    case Some(e) => Step(Err(e), outbound)
    case None => Step(Ok(()), outbound + [packet])
  }

  /** The messages of the exceptions each guard throws. */
  lemma GuardMessages(beenOpened: bool)
    ensures StartCheck(true) == Some(AlreadyStarted) && StartCheck(true).value.Message() == "Connection has already started"
    ensures StopCheck(true) == Some(AlreadyStopped) && StopCheck(true).value.Message() == "Connection has already stopped"
    ensures ValidateSocket(beenOpened, true).value.Message() == "Connection has been closed."
    ensures ValidateSocket(false, false).value.Message() == "Connection has not been opened."
    ensures StartCheck(false) == None && StopCheck(false) == None
  {
  }

  /** A second GetPackets with nothing enqueued in between returns an empty
      (not a missing) sequence. */
  lemma DrainTwiceYieldsEmpty(beenOpened: bool, beenClosed: bool, inbound: seq<string>)
    requires beenOpened && !beenClosed
    ensures var first := DrainInbound(beenOpened, beenClosed, inbound);
            first.result == Ok(inbound) &&
            DrainInbound(beenOpened, beenClosed, first.next) == Step(Ok([]), [])
  {
  }

  /** A FIFO queue of packets, as ConcurrentQueue<string> is used here. */
  class PacketQueue {
    var items: seq<string>

    constructor ()
      ensures items == []
    {
      items := [];
    }

    function Count(): nat
      reads this
    {
      |items|
    }

    predicate IsEmpty()
      reads this
    {
      items == []
    }

    method Enqueue(packet: string)
      modifies this
      ensures items == old(items) + [packet]
    {
      items := items + [packet];
    }

    method TryDequeue() returns (ok: bool, packet: string)
      modifies this
      ensures ok <==> old(items) != []
      ensures ok ==> packet == old(items)[0] && items == old(items)[1..]
      ensures !ok ==> items == old(items)
    {
      if items == [] {
        return false, "";
      }
      packet := items[0];
      items := items[1..];
      ok := true;
    }
  }

  /** GetPackets: validate, snapshot the count, dequeue that many packets. */
  method GetPackets(beenOpened: bool, beenClosed: bool, received: PacketQueue) returns (r: Result<seq<string>>)
    modifies received
    ensures Step(r, received.items) == DrainInbound(beenOpened, beenClosed, old(received.items))
  {
    var check := ValidateSocket(beenOpened, beenClosed);
    if check.Some? {
      return Err(check.value);
    }
    var returnList: seq<string> := [];
    var count := received.Count();
    for i := 0 to count
      invariant returnList + received.items == old(received.items)
      invariant |received.items| == count - i
    {
      var ok, message := received.TryDequeue();
      if ok {
        returnList := returnList + [message];
      }
    }
    assert received.items == [] && returnList == old(received.items);
    r := Ok(returnList);
  }

  /** SendPacket: validate, then enqueue. */
  method SendPacket(beenOpened: bool, beenClosed: bool, toSend: PacketQueue, packet: string) returns (r: Result<()>)
    modifies toSend
    ensures Step(r, toSend.items) == EnqueueOutbound(beenOpened, beenClosed, old(toSend.items), packet)
  {
    var check := ValidateSocket(beenOpened, beenClosed);
    if check.Some? {
      return Err(check.value);
    }
    toSend.Enqueue(packet);
    r := Ok(());
  }
}
