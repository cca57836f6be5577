// The hand-written WebSocket client of the tools tunnel: a buffered reader over a socket
// that cuts the stream where it likes, and the writer of masked frames.
module WebSocketClient {
  import opened Options
  import opened WebSocketFrames

  /******* What receiving means *******/

  datatype Outcome = Text(payload: Bytes, rest: Bytes) | Closed | Refused | EndOfStream

  // The outcome of one call and the pings met on the way.
  datatype Received = Received(outcome: Outcome, pings: seq<Bytes>)

  function Next(b: Bytes): Received
    decreases |b|
  {
    match Parse(b)
    case Incomplete => Received(EndOfStream, [])
    case TooLong => Received(Refused, [])
    case Got(frame, rest) =>
      if frame.opcode == CLOSE then Received(Closed, [])
      else if frame.opcode == TEXT then Received(Text(frame.payload, rest), [])
      else Received(Next(rest).outcome, PingOf(frame) + Next(rest).pings)
  }

  function PingOf(frame: Frame): seq<Bytes> {
    if frame.opcode == PING then [frame.payload] else []
  }

  // What a text says to the tunnel loop: a ping, a request, or something it ignores.
  datatype Incoming = Ping | Request(body: Bytes) | Other

  // json.loads with the "type" of the object; none stands for an error.
  type Decoder = Bytes -> Option<Incoming>

  datatype Answer = PongFor(payload: Bytes) | Heartbeat

  // The messages taken and the answers due, each in order.
  datatype Talk = Talk(messages: seq<Incoming>, answers: seq<Answer>)

  const NOTHING := Talk([], [])

  function Then(a: Talk, b: Talk): Talk {
    Talk(a.messages + b.messages, a.answers + b.answers)
  }

  function PongsFor(pings: seq<Bytes>): seq<Answer> {
    seq(|pings|, i requires 0 <= i < |pings| => PongFor(pings[i]))
  }

  // One message behind some pings.
  function Turn(pings: seq<Bytes>, message: Incoming): Talk {
    Talk([message], PongsFor(pings) + if message.Ping? then [Heartbeat] else [])
  }

  // Several calls in a row, and what is left of the stream.
  type Run = Option<(Talk, Bytes)>

  // One more call after some others.
  function After(decode: Decoder, talk: Talk, b: Bytes): Run {
    var next := Next(b);
    if !next.outcome.Text? || decode(next.outcome.payload).None? then None
    else Some((Then(talk, Turn(next.pings, decode(next.outcome.payload).value)), next.outcome.rest))
  }

  // n calls of one kind in a row.
  function Repeat(call: (Talk, Bytes) -> Run, n: nat, b: Bytes): Run {
    if n == 0 then Some((NOTHING, b))
    else
      match Repeat(call, n - 1, b)
      case None => None
      case Some((talk, rest)) => call(talk, rest)
  }

  function Calling(decode: Decoder): (Talk, Bytes) -> Run {
    (talk, b) => After(decode, talk, b)
  }

  // n calls that each return a message.
  function Session(decode: Decoder, n: nat, b: Bytes): Run {
    Repeat(Calling(decode), n, b)
  }

  // A run with something said before it.
  function Behind(talk: Talk, run: Run): Run {
    if run.None? then None else Some((Then(talk, run.value.0), run.value.1))
  }

  // What was said before makes no difference to a call.
  ghost predicate Adds(call: (Talk, Bytes) -> Run) {
    forall talk, more, b :: call(Then(talk, more), b) == Behind(talk, call(more, b))
  }

  // The first call of a session, and the rest of it.
  lemma {:induction false} RepeatFirst(call: (Talk, Bytes) -> Run, n: nat, b: Bytes, talk: Talk, rest: Bytes)
    requires Adds(call) && call(NOTHING, b) == Some((talk, rest))
    ensures Repeat(call, n + 1, b) == Behind(talk, Repeat(call, n, rest))
  {
    if n == 0 {
      assert Repeat(call, 0, b) == Some((NOTHING, b));
      ThenNothing(talk);
    } else {
      RepeatFirst(call, n - 1, b, talk, rest);
    }
  }

  // A session that failed stays failed.
  lemma {:induction false} RepeatFails(call: (Talk, Bytes) -> Run, k: nat, n: nat, b: Bytes)
    requires k <= n && Repeat(call, k, b) == None
    ensures Repeat(call, n, b) == None
  {
    if k < n {
      RepeatFails(call, k, n - 1, b);
    }
  }

  lemma {:induction false} OneMoreCall(decode: Decoder, n: nat, b: Bytes)
    requires Session(decode, n, b).Some?
    ensures Session(decode, n + 1, b) == After(decode, Session(decode, n, b).value.0, Session(decode, n, b).value.1)
  {
  }

  lemma CallingAdds(decode: Decoder)
    ensures Adds(Calling(decode))
  {
    forall talk, more, b ensures Calling(decode)(Then(talk, more), b) == Behind(talk, Calling(decode)(more, b)) {
      if After(decode, more, b).Some? {
        ThenThen(talk, more, Turn(Next(b).pings, decode(Next(b).outcome.payload).value));
      }
    }
  }

  lemma ThenThen(a: Talk, b: Talk, c: Talk)
    ensures Then(Then(a, b), c) == Then(a, Then(b, c))
  {
    assert (a.messages + b.messages) + c.messages == a.messages + (b.messages + c.messages);
    assert (a.answers + b.answers) + c.answers == a.answers + (b.answers + c.answers);
  }

  lemma ThenNothing(a: Talk)
    ensures Then(a, NOTHING) == a && Then(NOTHING, a) == a
  {
    assert a.messages + [] == a.messages && a.answers + [] == a.answers;
    assert [] + a.messages == a.messages && [] + a.answers == a.answers;
  }

  function Payloads(list: seq<Written>, opcode: Byte): seq<Bytes> {
    if list == [] then []
    else (if list[0].frame.opcode == opcode then [list[0].frame.payload] else []) + Payloads(list[1..], opcode)
  }

  // The first text of a list is its k-th frame, with no close before it.
  predicate TextAt(list: seq<Written>, k: nat) {
    && k < |list| && list[k].frame.opcode == TEXT
    && forall i | 0 <= i < k :: list[i].frame.opcode != TEXT && list[i].frame.opcode != CLOSE
  }

  lemma TextInRest(list: seq<Written>, k: nat)
    requires AllWritable(list) && WithinLimit(list) && TextAt(list, k) && k > 0
    ensures AllWritable(list[1..]) && WithinLimit(list[1..]) && TextAt(list[1..], k - 1)
    ensures list[1..][k - 1] == list[k] && list[1..][k..] == list[k + 1..]
  {
  }

  lemma {:induction false} NextOfWire(list: seq<Written>, k: nat, tail: Bytes)
    requires AllWritable(list) && WithinLimit(list) && TextAt(list, k)
    ensures Next(Wire(list) + tail)
         == Received(Text(list[k].frame.payload, Wire(list[k + 1..]) + tail), Payloads(list[..k], PING))
  {
    WireFirst(list, tail);
    if k == 0 {
      TextComes(Wire(list) + tail, list[0].frame, Wire(list[1..]) + tail);
      assert Payloads(list[..0], PING) == [];
    } else {
      TextInRest(list, k);
      NextOfWire(list[1..], k - 1, tail);
      PayloadsBefore(list, k);
      NextPasses(Wire(list) + tail, list[0].frame, Wire(list[1..]) + tail,
                 Text(list[k].frame.payload, Wire(list[k + 1..]) + tail), Payloads(list[1..][..k - 1], PING));
    }
  }

  lemma {:induction false} TextComes(b: Bytes, frame: Frame, rest: Bytes)
    requires Parse(b) == Got(frame, rest) && frame.opcode == TEXT
    ensures Next(b) == Received(Text(frame.payload, rest), [])
  {
  }

  // A frame before the next text is passed over, and its payload kept when it is a ping.
  lemma {:induction false} NextPasses(b: Bytes, frame: Frame, rest: Bytes, outcome: Outcome, pings: seq<Bytes>)
    requires Parse(b) == Got(frame, rest) && frame.opcode != TEXT && frame.opcode != CLOSE
    requires Next(rest) == Received(outcome, pings)
    ensures Next(b) == Received(outcome, PingOf(frame) + pings)
  {
  }

  lemma {:induction false} PayloadsBefore(list: seq<Written>, k: nat)
    requires 0 < k <= |list|
    ensures Payloads(list[..k], PING)
         == PingOf(list[0].frame) + Payloads(list[1..][..k - 1], PING)
  {
    assert list[..k][0] == list[0] && list[..k][1..] == list[1..][..k - 1];
  }

  // What one frame says, and what a list of frames says.
  function TalkOf(decode: Decoder, frame: Frame): Talk {
    if frame.opcode == PING then Talk([], [PongFor(frame.payload)])
    else if frame.opcode == TEXT && decode(frame.payload).Some? then Turn([], decode(frame.payload).value)
    else NOTHING
  }

  function Talks(decode: Decoder, list: seq<Written>): Talk {
    if list == [] then NOTHING else Then(TalkOf(decode, list[0].frame), Talks(decode, list[1..]))
  }

  lemma {:induction false} TalksConcat(decode: Decoder, a: seq<Written>, b: seq<Written>)
    ensures Talks(decode, a + b) == Then(Talks(decode, a), Talks(decode, b))
  {
    if a == [] {
      assert a + b == b;
      ThenNothing(Talks(decode, b));
    } else {
      assert (a + b)[0] == a[0] && (a + b)[1..] == a[1..] + b;
      TalksConcat(decode, a[1..], b);
      ThenThen(TalkOf(decode, a[0].frame), Talks(decode, a[1..]), Talks(decode, b));
    }
  }

  lemma {:induction false} TalksWithoutTexts(decode: Decoder, list: seq<Written>)
    requires forall i | 0 <= i < |list| :: list[i].frame.opcode != TEXT
    ensures Talks(decode, list) == Talk([], PongsFor(Payloads(list, PING)))
  {
    if list == [] {
      assert PongsFor([]) == [];
    } else {
      TalksWithoutTexts(decode, list[1..]);
      PongsForMore(if list[0].frame.opcode == PING then [list[0].frame.payload] else [], Payloads(list[1..], PING));
    }
  }

  lemma PongsForMore(pings: seq<Bytes>, more: seq<Bytes>)
    ensures PongsFor(pings + more) == PongsFor(pings) + PongsFor(more)
    ensures |pings| == 1 ==> PongsFor(pings) == [PongFor(pings[0])]
    ensures pings == [] ==> PongsFor(pings) == []
  {
  }

  // The pings before the first text, that text, and the rest.
  lemma {:induction false} TalksAt(decode: Decoder, list: seq<Written>, k: nat)
    requires k < |list| && list[k].frame.opcode == TEXT && decode(list[k].frame.payload).Some?
    requires forall i | 0 <= i < k :: list[i].frame.opcode != TEXT
    ensures Talks(decode, list)
         == Then(Turn(Payloads(list[..k], PING), decode(list[k].frame.payload).value), Talks(decode, list[k + 1..]))
  {
    CutAt(list, k);
    TalksWithoutTexts(decode, list[..k]);
    TalksConcat(decode, list[..k], [list[k]] + list[k + 1..]);
    TalksConcat(decode, [list[k]], list[k + 1..]);
    TalksOne(decode, list[k]);
    ThenThen(Talks(decode, list[..k]), TalkOf(decode, list[k].frame), Talks(decode, list[k + 1..]));
    TurnParts(Payloads(list[..k], PING), decode(list[k].frame.payload).value);
  }

  lemma CutAt(list: seq<Written>, k: nat)
    requires k < |list|
    ensures list == list[..k] + ([list[k]] + list[k + 1..])
  {
  }

  lemma {:induction false} TalksOne(decode: Decoder, w: Written)
    ensures Talks(decode, [w]) == TalkOf(decode, w.frame)
  {
    assert [w][1..] == [];
    ThenNothing(TalkOf(decode, w.frame));
  }

  lemma TurnParts(pings: seq<Bytes>, message: Incoming)
    ensures Then(Talk([], PongsFor(pings)), Turn([], message)) == Turn(pings, message)
  {
    assert PongsFor([]) == [];
  }

  // No close, and every text is a message.
  predicate Speaks(decode: Decoder, list: seq<Written>) {
    forall i | 0 <= i < |list| ::
      list[i].frame.opcode != CLOSE && (list[i].frame.opcode == TEXT ==> decode(list[i].frame.payload).Some?)
  }

  // What a whole run of calls makes of a list of frames that ends with a text.
  predicate Delivers(decode: Decoder, list: seq<Written>, tail: Bytes)
    requires AllWritable(list)
  {
    Session(decode, |Talks(decode, list).messages|, Wire(list) + tail) == Some((Talks(decode, list), tail))
  }

  // However a peer writes its frames, the calls give exactly its messages in order, owe
  // the answers to its pings in order, and leave what follows.
  lemma {:induction false} SessionOfWire(decode: Decoder, list: seq<Written>, tail: Bytes)
    requires AllWritable(list) && WithinLimit(list) && Speaks(decode, list)
    requires list == [] || list[|list| - 1].frame.opcode == TEXT
    ensures Delivers(decode, list, tail)
    decreases |list|
  {
    if list == [] {
      assert Pieces(list) == [] && Wire(list) + tail == tail;
    } else {
      var k := FirstText(list, 0);
      SessionOfWire(decode, list[k + 1..], tail);
      DeliversAfter(decode, list, k, tail);
    }
  }

  lemma DeliversAfter(decode: Decoder, list: seq<Written>, k: nat, tail: Bytes)
    requires AllWritable(list) && WithinLimit(list) && Speaks(decode, list)
    requires TextAt(list, k) && Delivers(decode, list[k + 1..], tail)
    ensures Delivers(decode, list, tail)
  {
    TalksAt(decode, list, k);
    FirstCall(decode, list, k, tail);
    CallingAdds(decode);
    RepeatOn(Calling(decode), Turn(Payloads(list[..k], PING), decode(list[k].frame.payload).value),
             Talks(decode, list[k + 1..]), Wire(list) + tail, Wire(list[k + 1..]) + tail, tail);
  }

  lemma FirstCall(decode: Decoder, list: seq<Written>, k: nat, tail: Bytes)
    requires AllWritable(list) && WithinLimit(list) && Speaks(decode, list)
    requires TextAt(list, k)
    ensures Calling(decode)(NOTHING, Wire(list) + tail)
         == Some((Turn(Payloads(list[..k], PING), decode(list[k].frame.payload).value), Wire(list[k + 1..]) + tail))
  {
    NextOfWire(list, k, tail);
    CallTakes(decode, list[k].frame.payload, Payloads(list[..k], PING), Wire(list) + tail, Wire(list[k + 1..]) + tail);
  }

  lemma {:induction false} CallTakes(decode: Decoder, payload: Bytes, pings: seq<Bytes>, b: Bytes, rest: Bytes)
    requires Next(b) == Received(Text(payload, rest), pings) && decode(payload).Some?
    ensures Calling(decode)(NOTHING, b) == Some((Turn(pings, decode(payload).value), rest))
  {
    ThenNothing(Turn(pings, decode(payload).value));
  }

  lemma {:induction false} RepeatOn(call: (Talk, Bytes) -> Run, turn: Talk, talk: Talk,
                                    b: Bytes, rest: Bytes, tail: Bytes)
    requires Adds(call) && call(NOTHING, b) == Some((turn, rest)) && |turn.messages| == 1
    requires Repeat(call, |talk.messages|, rest) == Some((talk, tail))
    ensures Repeat(call, |Then(turn, talk).messages|, b) == Some((Then(turn, talk), tail))
  {
    RepeatFirst(call, |talk.messages|, b, turn, rest);
  }

  function FirstText(list: seq<Written>, from: nat): (k: nat)
    requires from < |list| && list[|list| - 1].frame.opcode == TEXT
    requires forall i | 0 <= i < from :: list[i].frame.opcode != TEXT
    ensures k < |list| && list[k].frame.opcode == TEXT
    ensures forall i | 0 <= i < k :: list[i].frame.opcode != TEXT
    decreases |list| - from
  {
    if list[from].frame.opcode == TEXT then from else FirstText(list, from + 1)
  }

  /******* The answers *******/

  // One pong of equal payload for each ping, in order.
  function Pongs(pings: seq<Bytes>): seq<Frame> {
    seq(|pings|, i requires 0 <= i < |pings| => Frame(PONG, pings[i]))
  }

  lemma PongsMore(sent: seq<Frame>, pings: seq<Bytes>, more: seq<Bytes>)
    ensures sent + Pongs(pings + more) == sent + Pongs(pings) + Pongs(more)
  {
    assert Pongs(pings + more) == Pongs(pings) + Pongs(more);
  }

  lemma PongsOne(sent: seq<Frame>, pings: seq<Bytes>, payload: Bytes)
    ensures sent + Pongs(pings + [payload]) == sent + Pongs(pings) + [Frame(PONG, payload)]
  {
    PongsMore(sent, pings, [payload]);
    assert Pongs([payload]) == [Frame(PONG, payload)];
  }

  lemma PongsNone(sent: seq<Frame>)
    ensures sent + Pongs([]) == sent
  {
    assert Pongs([]) == [];
  }

  /******* The socket *******/

  // What is still to arrive and what has been written; where recv cuts is not known.
  class Socket {
    var incoming: Bytes
    var outgoing: Bytes

    method Recv(size: nat) returns (value: Bytes)
      requires size > 0
      modifies this`incoming
      ensures old(incoming) == value + incoming
      ensures |value| <= size
      ensures value == [] <==> old(incoming) == []
    {
      if incoming == [] {
        return [];
      }
      var n: nat :| 1 <= n <= size && n <= |incoming|;
      value, incoming := incoming[..n], incoming[n..];
    }

    // Writes everything, or raises after some of it.
    method SendAll(data: Bytes) returns (ok: bool)
      modifies this`outgoing
      ensures ok ==> outgoing == old(outgoing) + data
      ensures !ok ==> exists k | 0 <= k <= |data| :: outgoing == old(outgoing) + data[..k]
    {
      ok := *;
      if ok {
        outgoing := outgoing + data;
      } else {
        var k: nat :| k <= |data|;
        outgoing := outgoing + data[..k];
      }
    }
  }

  // Stands for os.urandom(4).
  method RandomMask() returns (mask: Bytes)
    ensures |mask| == 4
  {
    var a: Byte := *;
    var b: Byte := *;
    var c: Byte := *;
    var d: Byte := *;
    mask := [a, b, c, d];
  }

  // The masking loop, in place.
  method ApplyMask(payload: array<Byte>, mask: Bytes)
    requires |mask| == 4
    modifies payload
    ensures payload[..] == Masked(old(payload[..]), mask)
  {
    for index := 0 to payload.Length
      invariant forall i | 0 <= i < index :: payload[i] == Xor(old(payload[i]), mask[i % 4])
      invariant forall i | index <= i < payload.Length :: payload[i] == old(payload[i])
    {
      payload[index] := Xor(payload[index], mask[index % 4]);
    }
  }

  method ToArray(b: Bytes) returns (a: array<Byte>)
    ensures fresh(a) && a[..] == b
  {
    a := new Byte[|b|](i requires 0 <= i < |b| => b[i]);
  }

  // The first bytes of a masked frame.
  method FrameHeader(opcode: Byte, length: nat) returns (header: Bytes)
    requires Fits(length, 8) && opcode < 16
    ensures FormFits(ShortestForm(length), length)
    ensures header == EncodeHeader(128, opcode, length, ShortestForm(length), true)
  {
    FitsWidths(length);
    header := [128 + opcode];
    if length < 126 {
      header := header + [128 + length];
    } else if length <= 65535 {
      header := header + [128 + 126] + BigEndian(length, 2);
    } else {
      header := header + [128 + 127] + BigEndian(length, 8);
    }
  }

  // One frame as it is written.
  method MaskedFrame(payload: Bytes, opcode: Byte, mask: Bytes) returns (data: Bytes)
    requires Fits(|payload|, 8) && opcode < 16 && |mask| == 4
    ensures data == Encode(Frame(opcode, payload), mask)
  {
    var header := FrameHeader(opcode, |payload|);
    var masked := ToArray(payload);
    ApplyMask(masked, mask);
    data := header + mask + masked[..];
    assert data == header + (mask + masked[..]);
  }

  lemma LogOne(log: seq<Written>, frame: Frame, mask: Bytes)
    requires AllWritable(log) && |mask| == 4 && frame.opcode < 16 && Fits(|frame.payload|, 8)
    ensures AllWritable(log + [Sent(frame, mask)])
    ensures Wire(log + [Sent(frame, mask)]) == Wire(log) + Encode(frame, mask)
    ensures FramesOf(log + [Sent(frame, mask)]) == FramesOf(log) + [frame]
  {
    SentIsEncode(frame, mask);
    assert AllWritable(log + [Sent(frame, mask)]);
    WireOfConcat(log, [Sent(frame, mask)]);
  }

  /******* The handshake *******/

  const CRLFCRLF: Bytes := [13, 10, 13, 10]

  predicate EndsHeader(b: Bytes, i: nat) {
    i + 4 <= |b| && b[i..i + 4] == CRLFCRLF
  }

  // The end of the header is an empty line: two line ends in a row.
  lemma EmptyLine(b: Bytes, i: nat)
    ensures EndsHeader(b, i) <==> i + 4 <= |b| && b[i] == 13 && b[i + 1] == 10 && b[i + 2] == 13 && b[i + 3] == 10
  {
    if i + 4 <= |b| {
      assert b[i..i + 4] == [b[i], b[i + 1], b[i + 2], b[i + 3]];
    }
  }

  predicate FirstEnd(b: Bytes, i: nat) {
    EndsHeader(b, i) && forall j | 0 <= j < i :: !EndsHeader(b, j)
  }

  // response.split(b"\r\n\r\n", 1), when the separator is there.
  method FindEnd(response: Bytes) returns (found: Option<nat>)
    ensures found.Some? ==> FirstEnd(response, found.value)
    ensures found.None? ==> forall j: nat :: !EndsHeader(response, j)
  {
    var i := 0;
    while i + 4 <= |response|
      invariant forall j | 0 <= j < i :: !EndsHeader(response, j)
    {
      if response[i..i + 4] == CRLFCRLF {
        return Some(i);
      }
      i := i + 1;
    }
    return None;
  }

  // Looking at the beginning of a stream finds the first end as soon as it is there.
  lemma EndIsThere(response: Bytes, rest: Bytes, end: nat)
    requires FirstEnd(response + rest, end) && end + 4 <= |response|
    ensures EndsHeader(response, end)
  {
    assert response[end..end + 4] == (response + rest)[end..end + 4];
  }

  lemma EndIsFirst(response: Bytes, rest: Bytes, end: nat, i: nat)
    requires FirstEnd(response + rest, end) && FirstEnd(response, i)
    ensures i == end && response[..i] == (response + rest)[..end]
    ensures response[i + 4..] + rest == (response + rest)[end + 4..]
  {
    assert (response + rest)[i..i + 4] == response[i..i + 4];
    assert EndsHeader(response + rest, i);
    if end < i {
      EndIsThere(response, rest, end);
    }
  }

  /******* The client *******/

  class Client {
    const socket: Socket
    const decode: Decoder
    const heartbeat: nat -> Bytes
    var buffer: Bytes
    ghost var log: seq<Written>
    ghost var sent: seq<Frame>

    // `heartbeat` is the text of a heartbeat at some time.
    constructor (socket: Socket, decode: Decoder, heartbeat: nat -> Bytes)
      requires socket.outgoing == [] && Beats(heartbeat)
      ensures this.socket == socket && this.decode == decode && this.heartbeat == heartbeat
      ensures buffer == [] && sent == [] && Valid()
    {
      this.socket, this.decode, this.heartbeat := socket, decode, heartbeat;
      buffer, log, sent := [], [], [];
    }

    // What has been written since the handshake is the frames sent, in order.
    ghost predicate Valid()
      reads this, socket
    {
      AllWritable(log) && socket.outgoing == Wire(log) && sent == FramesOf(log)
    }

    // A send raised part way: behind the frames sent stands a part of one more.
    ghost predicate Torn(frame: Frame)
      reads this, socket
    {
      && frame.opcode < 16 && Fits(|frame.payload|, 8)
      && AllWritable(log) && sent == FramesOf(log)
      && exists mask: Bytes, k | |mask| == 4 && 0 <= k <= |Encode(frame, mask)| ::
           socket.outgoing == Wire(log) + Encode(frame, mask)[..k]
    }

    // The part of the stream that has not been consumed.
    ghost function Pending(): Bytes
      reads this, socket
    {
      buffer + socket.incoming
    }

    // The read loop of the handshake; what arrived behind the header stays in the buffer.
    // None stands for the error of an oversized answer.
    method Handshake(ghost end: nat) returns (header: Option<Bytes>)
      requires FirstEnd(socket.incoming, end)
      modifies this`buffer, socket`incoming
      ensures header.Some? ==> header.value == old(socket.incoming)[..end]
                               && Pending() == old(socket.incoming)[end + 4..]
      ensures end + 4099 <= 65536 ==> header.Some?
      ensures header.None? ==> |old(socket.incoming)| > 65536
    {
      var response: Bytes := [];
      var found: Option<nat> := None;
      while found.None?
        invariant response + socket.incoming == old(socket.incoming)
        invariant found.Some? ==> FirstEnd(response, found.value)
        invariant found.None? ==> forall j: nat :: !EndsHeader(response, j)
        invariant found.None? ==> |response| < end + 4
        decreases |socket.incoming|, found.None?
      {
        response := ReceiveMore(response);
        if |response| > 65536 {
          return None;
        }
        found := FindEnd(response);
        if found.None? && end + 4 <= |response| {
          EndIsThere(response, socket.incoming, end);
        }
      }
      EndIsFirst(response, socket.incoming, end, found.value);
      header, buffer := Some(response[..found.value]), response[found.value + 4..];
    }

    // One more piece of the answer.
    method ReceiveMore(response: Bytes) returns (longer: Bytes)
      requires socket.incoming != []
      modifies socket`incoming
      ensures longer + socket.incoming == response + old(socket.incoming)
      ensures |response| < |longer| <= |response| + 4096
    {
      var value := socket.Recv(4096);
      longer := response + value;
      assert longer + socket.incoming == response + (value + socket.incoming);
    }

    // The next bytes of the stream; none stands for the error when it ends first.
    method Read(size: nat) returns (value: Option<Bytes>)
      modifies this`buffer, socket`incoming
      ensures size <= |old(Pending())| ==> value == Some(old(Pending())[..size]) && Pending() == old(Pending())[size..]
      ensures size > |old(Pending())| ==> value == None && Pending() == old(Pending())
    {
      while |buffer| < size
        invariant Pending() == old(Pending())
        decreases |socket.incoming|
      {
        var chunk := socket.Recv(if size - |buffer| > 4096 then size - |buffer| else 4096);
        if chunk == [] {
          return None;
        }
        ghost var before := buffer;
        buffer := buffer + chunk;
        assert Pending() == before + (chunk + socket.incoming);
      }
      assert old(Pending())[..size] == buffer[..size];
      assert old(Pending())[size..] == buffer[size..] + socket.incoming;
      value, buffer := Some(buffer[..size]), buffer[size..];
    }

    // The payload of a frame behind its length.
    method ReadBody(masked: bool, length: nat) returns (payload: Option<Bytes>)
      modifies this`buffer, socket`incoming
      ensures var body := Body(masked, old(Pending()), length);
              if body.None? then payload == None else payload == Some(body.value.0) && Pending() == body.value.1
    {
      var mask: Option<Bytes> := None;
      if masked {
        mask := Read(4);
        if mask.None? {
          return None;
        }
      }
      ghost var stream := old(Pending());
      assert masked && 4 + length <= |stream| ==>
             stream[4..][..length] == stream[4..4 + length] && stream[4..][length..] == stream[4 + length..];
      payload := Read(length);
      if payload.Some? && mask.Some? {
        var bytes := ToArray(payload.value);
        ApplyMask(bytes, mask.value);
        payload := Some(bytes[..]);
      }
    }

    // Two bytes, the length, the limit, the mask and the payload.
    method ReadFrame() returns (arrival: Arrival)
      modifies this`buffer, socket`incoming
      ensures match Parse(old(Pending()))
              case Got(frame, rest) => arrival == Arrived(frame) && Pending() == rest
              case TooLong => arrival == Oversized
              case Incomplete => arrival == Ended
    {
      ghost var stream := Pending();
      var head := Read(2);
      if head.None? {
        return Ended;
      }
      var first, second := head.value[0], head.value[1];
      assert first == stream[0] && second == stream[1];
      var length := second % 128;
      var form := FormOf(second);
      if form != Short {
        var digits := Read(Width(form));
        if digits.None? {
          return Ended;
        }
        assert digits.value == stream[2..][..Width(form)] == stream[2..HeaderSize(stream)];
        assert stream[2..][Width(form)..] == stream[HeaderSize(stream)..];
        length := Number(digits.value);
      }
      assert length == LengthOf(stream) && Pending() == stream[HeaderSize(stream)..];
      if length > LIMIT {
        return Oversized;
      }
      var payload := ReadBody(second >= 128, length);
      if payload.None? {
        return Ended;
      }
      arrival := Arrived(Frame(first % 16, payload.value));
    }

    // Masks the payload in place and writes one frame, if sendall does not raise.
    method SendFrame(payload: Bytes, opcode: Byte) returns (ok: bool)
      requires Fits(|payload|, 8) && opcode < 16
      requires Valid()
      modifies socket`outgoing, this`log, this`sent
      ensures ok ==> Valid() && sent == old(sent) + [Frame(opcode, payload)]
      ensures !ok ==> Torn(Frame(opcode, payload)) && sent == old(sent)
    {
      var mask := RandomMask();
      var data := MaskedFrame(payload, opcode, mask);
      ok := socket.SendAll(data);
      ghost var frame := Frame(opcode, payload);
      if ok {
        LogOne(log, frame, mask);
        log, sent := log + [Sent(frame, mask)], sent + [frame];
      }
    }

    // The answer to one ping, behind the pongs for those before it.
    method SendPong(payload: Bytes, ghost before: seq<Frame>, ghost answered: seq<Bytes>) returns (ok: bool)
      requires Valid() && |payload| <= LIMIT && sent == before + Pongs(answered)
      modifies socket`outgoing, this`log, this`sent
      ensures if ok then Valid() && sent == before + Pongs(answered + [payload])
              else Torn(Frame(PONG, payload)) && sent == before + Pongs(answered)
    {
      FitsWidths(|payload|);
      PongsOne(before, answered, payload);
      ok := SendFrame(payload, PONG);
    }

    // One call of receive: pings are answered, other frames than texts and closes skipped.
    method Receive() returns (result: Result)
      requires Valid()
      modifies this`buffer, this`log, this`sent, socket
      ensures var next := Next(old(Pending()));
              if result.SendFailed? then
                exists j | 0 <= j < |next.pings| ::
                  sent == old(sent) + Pongs(next.pings[..j]) && Torn(Frame(PONG, next.pings[j]))
              else
                && Valid() && sent == old(sent) + Pongs(next.pings) && result == ResultOf(decode, next.outcome)
                && (next.outcome.Text? ==> next.outcome.rest == Pending())
    {
      ghost var stream, before := Pending(), sent;
      ghost var answered: seq<Bytes> := [];
      PongsNone(sent);
      AfterNone(stream);
      while true
        invariant Valid()
        invariant sent == before + Pongs(answered)
        invariant CallAfter(answered, Pending()) == CallAfter([], stream)
        decreases |Pending()|
      {
        ghost var now := Pending();
        var arrival := ReadFrame();
        AfterFrame(answered, now);
        match arrival {
          case Ended =>
            return StreamEnded;
          case Oversized =>
            return LimitExceeded;
          case Arrived(frame) =>
            if frame.opcode == CLOSE {
              return PeerClosed;
            } else if frame.opcode == PING {
              var ok := SendPong(frame.payload, before, answered);
              answered := answered + [frame.payload];
              if !ok {
                AfterPings(answered, Pending(), stream);
                return SendFailed;
              }
            } else if frame.opcode == TEXT {
              return Decoded(decode, frame.payload);
            }
        }
      }
    }

    // client.send of a heartbeat
    method SendHeartbeat() returns (ok: bool)
      requires Valid() && Beats(heartbeat)
      modifies socket`outgoing, this`log, this`sent
      ensures ok ==> Valid() && |sent| == |old(sent)| + 1 && sent[..|old(sent)|] == old(sent)
                     && Says(heartbeat, Heartbeat, sent[|old(sent)|])
      ensures !ok ==> sent == old(sent) && exists frame :: Torn(frame)
    {
      var at: nat := *;
      var text := BeatAt(heartbeat, at);
      BeatFits(heartbeat, at);
      ok := SendFrame(text, TEXT);
      ghost var frame := Frame(TEXT, text);
      assert ok || Torn(frame);
    }

    // A ping of the gateway is answered with a heartbeat.
    method Respond(message: Incoming, ghost before: seq<Frame>, ghost answers: seq<Answer>) returns (ok: bool)
      requires Valid() && Beats(heartbeat) && SaidSince(before, answers)
      modifies socket`outgoing, this`log, this`sent
      ensures if ok then Valid() && SaidSince(before, answers + if message.Ping? then [Heartbeat] else [])
              else exists frame :: Torn(frame)
    {
      ghost var pongs := sent;
      ok := true;
      if message.Ping? {
        ok := SendHeartbeat();
        if ok {
          SayMore(heartbeat, before, pongs, sent, answers);
        }
      } else {
        assert answers + [] == answers;
      }
    }

    // One turn of the tunnel loop, behind what was said so far.
    method ServeOne(ghost before: seq<Frame>, ghost said: Talk) returns (result: Result, ghost talk: Talk)
      requires Valid() && Beats(heartbeat) && SaidSince(before, said.answers)
      modifies this`buffer, this`log, this`sent, socket
      ensures if result.SendFailed? then exists frame :: Torn(frame) else Valid()
      ensures !result.SendFailed? ==>
                After(decode, said, old(Pending())) == if result.Message? then Some((talk, Pending())) else None
      ensures result.Message? ==> talk.messages == said.messages + [result.message] && SaidSince(before, talk.answers)
    {
      ghost var next, mid := Next(Pending()), sent;
      talk := said;
      result := Receive();
      if result.Message? {
        PongsSay(heartbeat, sent[|mid|..], next.pings);
        SayThen(heartbeat, before, mid, sent, said.answers, PongsFor(next.pings));
        talk := Then(said, Turn(next.pings, result.message));
        SameAnswers(said, next.pings, result.message);
        var ok := Respond(result.message, before, said.answers + PongsFor(next.pings));
        if !ok {
          result := SendFailed;
        }
      }
    }

    // The frames sent since then are these answers.
    ghost predicate SaidSince(before: seq<Frame>, answers: seq<Answer>)
      reads this
    {
      before <= sent && SaysAll(heartbeat, answers, sent[|before|..])
    }

    // The tunnel from its first heartbeat over its first n messages, with the requests
    // handed to the workers.  Without a result some send raised, or the stream does not
    // hold n messages.
    method Serve(n: nat) returns (requests: Option<seq<Bytes>>, torn: bool)
      requires Valid() && Beats(heartbeat)
      modifies this`buffer, this`log, this`sent, socket
      ensures if torn then requests == None && exists frame :: Torn(frame) else Valid()
      ensures requests.None? && !torn ==> Session(decode, n, old(Pending())) == None
      ensures requests.Some? ==>
                exists talk: Talk :: Session(decode, n, old(Pending())) == Some((talk, Pending()))
                               && requests.value == Requests(talk.messages)
                               && SaidSince(old(sent), [Heartbeat] + talk.answers)
    {
      var ok := SendHeartbeat();
      if !ok {
        return None, true;
      }
      ghost var mid, talk := sent, NOTHING;
      requests, torn, talk := ServeMessages(n);
      if requests.Some? {
        SayFirst(heartbeat, old(sent), mid, sent, talk.answers);
      }
    }

    // The loop of the tunnel.
    method ServeMessages(n: nat) returns (requests: Option<seq<Bytes>>, torn: bool, ghost talk: Talk)
      requires Valid() && Beats(heartbeat)
      modifies this`buffer, this`log, this`sent, socket
      ensures if torn then requests == None && exists frame :: Torn(frame) else Valid()
      ensures requests.None? && !torn ==> Session(decode, n, old(Pending())) == None
      ensures requests.Some? ==> Session(decode, n, old(Pending())) == Some((talk, Pending()))
      ensures requests.Some? ==> requests.value == Requests(talk.messages) && SaidSince(old(sent), talk.answers)
    {
      ghost var begun := Pending();
      talk := NOTHING;
      var list: seq<Bytes> := [];
      for i := 0 to n
        invariant Valid()
        invariant Session(decode, i, begun) == Some((talk, Pending()))
        invariant SaidSince(old(sent), talk.answers)
        invariant list == Requests(talk.messages)
      {
        RequestsThen(talk.messages);
        OneMoreCall(decode, i, begun);
        var result;
        result, talk := ServeOne(old(sent), talk);
        if !result.Message? {
          if !result.SendFailed? {
            RepeatFails(Calling(decode), i + 1, n, begun);
          }
          return None, result.SendFailed?, talk;
        }
        if result.message.Request? {
          list := list + [result.message.body];
        }
      }
      requests, torn := Some(list), false;
    }
  }

  // What the loop hands to its workers.
  function Requests(messages: seq<Incoming>): seq<Bytes> {
    if messages == [] then []
    else
      var last := messages[|messages| - 1];
      Requests(messages[..|messages| - 1]) + if last.Request? then [last.body] else []
  }

  lemma {:induction false} RequestsThen(messages: seq<Incoming>)
    ensures forall message ::
              Requests(messages + [message]) == Requests(messages) + if message.Request? then [message.body] else []
  {
    forall message
      ensures Requests(messages + [message]) == Requests(messages) + if message.Request? then [message.body] else []
    {
      assert (messages + [message])[..|messages|] == messages;
    }
  }

  function BeatAt(heartbeat: nat -> Bytes, at: nat): Bytes {
    heartbeat(at)
  }

  // Heartbeats are within the limit of a message.
  ghost predicate Beats(heartbeat: nat -> Bytes) {
    forall at: nat :: |BeatAt(heartbeat, at)| <= LIMIT
  }

  lemma BeatFits(heartbeat: nat -> Bytes, at: nat)
    requires Beats(heartbeat)
    ensures Fits(|BeatAt(heartbeat, at)|, 8)
    ensures Says(heartbeat, Heartbeat, Frame(TEXT, BeatAt(heartbeat, at)))
  {
    FitsWidths(|BeatAt(heartbeat, at)|);
  }

  // A frame that gives an answer.
  ghost predicate Says(heartbeat: nat -> Bytes, answer: Answer, frame: Frame) {
    match answer
    case PongFor(payload) => frame == Frame(PONG, payload)
    case Heartbeat => exists at: nat :: frame == Frame(TEXT, BeatAt(heartbeat, at))
  }

  ghost predicate SaysAll(heartbeat: nat -> Bytes, answers: seq<Answer>, frames: seq<Frame>) {
    |frames| == |answers| && forall i | 0 <= i < |answers| :: Says(heartbeat, answers[i], frames[i])
  }

  // A pong carries the payload of its ping, a heartbeat the text of some time.
  lemma AnswersSay(heartbeat: nat -> Bytes, payload: Bytes, frame: Frame)
    ensures Says(heartbeat, PongFor(payload), frame) <==> frame.opcode == 0xA && frame.payload == payload
    ensures Says(heartbeat, Heartbeat, frame) ==>
              frame.opcode == 0x1 && exists at: nat :: frame.payload == BeatAt(heartbeat, at)
  {
  }

  lemma PongsSay(heartbeat: nat -> Bytes, frames: seq<Frame>, pings: seq<Bytes>)
    requires frames == Pongs(pings)
    ensures SaysAll(heartbeat, PongsFor(pings), frames)
  {
  }

  lemma SayMore(heartbeat: nat -> Bytes, before: seq<Frame>, mid: seq<Frame>, sent: seq<Frame>, answers: seq<Answer>)
    requires before <= mid && SaysAll(heartbeat, answers, mid[|before|..])
    requires |sent| == |mid| + 1 && sent[..|mid|] == mid && Says(heartbeat, Heartbeat, sent[|mid|])
    ensures before <= sent && SaysAll(heartbeat, answers + [Heartbeat], sent[|before|..])
  {
    assert sent[|before|..] == mid[|before|..] + [sent[|mid|]];
  }

  lemma SayThen(heartbeat: nat -> Bytes, before: seq<Frame>, mid: seq<Frame>, sent: seq<Frame>,
                answers: seq<Answer>, more: seq<Answer>)
    requires before <= mid <= sent
    requires SaysAll(heartbeat, answers, mid[|before|..]) && SaysAll(heartbeat, more, sent[|mid|..])
    ensures SaysAll(heartbeat, answers + more, sent[|before|..])
  {
    assert sent[|before|..] == mid[|before|..] + sent[|mid|..];
  }

  lemma SameAnswers(said: Talk, pings: seq<Bytes>, message: Incoming)
    ensures Then(said, Turn(pings, message)).answers
         == (said.answers + PongsFor(pings)) + if message.Ping? then [Heartbeat] else []
  {
  }

  lemma SayFirst(heartbeat: nat -> Bytes, before: seq<Frame>, mid: seq<Frame>, sent: seq<Frame>, answers: seq<Answer>)
    requires |mid| == |before| + 1 && mid[..|before|] == before && Says(heartbeat, Heartbeat, mid[|before|])
    requires mid <= sent && SaysAll(heartbeat, answers, sent[|mid|..])
    ensures before <= sent && SaysAll(heartbeat, [Heartbeat] + answers, sent[|before|..])
  {
    assert sent[|before|..] == [mid[|before|]] + sent[|mid|..];
  }

  datatype Arrival = Arrived(frame: Frame) | Oversized | Ended

  // A message, or the error that receive raises.
  datatype Result = Message(message: Incoming) | NotDecoded | PeerClosed | LimitExceeded | StreamEnded | SendFailed

  function Decoded(decode: Decoder, payload: Bytes): Result {
    match decode(payload)
    case Some(message) => Message(message)
    case None => NotDecoded
  }

  function ResultOf(decode: Decoder, outcome: Outcome): Result {
    match outcome
    case Text(payload, rest) => Decoded(decode, payload)
    case Closed => PeerClosed
    case Refused => LimitExceeded
    case EndOfStream => StreamEnded
  }

  // What a call comes to when it has answered some pings and stands at a stream.
  function CallAfter(answered: seq<Bytes>, b: Bytes): Received {
    Received(Next(b).outcome, answered + Next(b).pings)
  }

  lemma {:induction false} AfterNone(b: Bytes)
    ensures CallAfter([], b) == Next(b)
  {
    assert [] + Next(b).pings == Next(b).pings;
  }

  lemma AfterFrame(answered: seq<Bytes>, now: Bytes)
    ensures match Parse(now)
            case Got(frame, rest) =>
              if frame.opcode == CLOSE then CallAfter(answered, now) == Received(Closed, answered)
              else if frame.opcode == TEXT then
                CallAfter(answered, now) == Received(Text(frame.payload, rest), answered)
              else if frame.opcode == PING then CallAfter(answered, now) == CallAfter(answered + [frame.payload], rest)
              else CallAfter(answered, now) == CallAfter(answered, rest)
            case TooLong => CallAfter(answered, now) == Received(Refused, answered)
            case Incomplete => CallAfter(answered, now) == Received(EndOfStream, answered)
  {
    assert answered + [] == answered;
    if Parse(now).Got? {
      PingsJoin(answered, Parse(now).frame, Next(Parse(now).rest).pings);
    }
  }

  lemma PingsJoin(answered: seq<Bytes>, frame: Frame, pings: seq<Bytes>)
    ensures frame.opcode == PING ==> answered + (PingOf(frame) + pings) == (answered + [frame.payload]) + pings
    ensures frame.opcode != PING ==> answered + (PingOf(frame) + pings) == answered + pings
  {
  }

  // The pings answered before one whose answer is torn.
  lemma {:induction false} AfterPings(answered: seq<Bytes>, b: Bytes, stream: Bytes)
    requires answered != [] && CallAfter(answered, b) == Next(stream)
    ensures |answered| <= |Next(stream).pings|
    ensures Next(stream).pings[..|answered| - 1] == answered[..|answered| - 1]
    ensures Next(stream).pings[|answered| - 1] == answered[|answered| - 1]
  {
  }
}
