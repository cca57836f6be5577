// Several threads send over one WebSocket: the reader answering pings and the workers of
// the tool proxy share one lock around partial writes to the socket.
module WebSocketSenders {
  import opened Options
  import opened WebSocketFrames

  type Thread = nat

  // A thread outside send_frame, at the lock with its frame masked, or writing it.
  datatype Phase = Idle | Waiting(w: Written) | Writing(w: Written, left: Bytes)

  // What one turn under the lock put on the wire.
  datatype Piece = Piece(thread: Thread, w: Written, bytes: Bytes)

  datatype State = State(wire: Bytes, phases: map<Thread, Phase>, holder: Option<Thread>, pieces: seq<Piece>)

  datatype Event =
    | Call(thread: Thread, frame: Frame, mask: Bytes)
    | Take(thread: Thread)
    | Put(thread: Thread, count: nat)
    | Finish(thread: Thread)
    | Abort(thread: Thread)

  const START := State([], map[], None, [])

  function PhaseOf(s: State, t: Thread): Phase {
    if t in s.phases then s.phases[t] else Idle
  }

  predicate Sendable(frame: Frame, mask: Bytes) {
    |mask| == 4 && frame.opcode < 16 && Fits(|frame.payload|, 8)
  }

  function WireOf(w: Written): Bytes {
    if Writable(w) then WireOne(w) else []
  }

  // One step of a thread. The lock is given back when sendall returns and when it raises;
  // a raise may come after some bytes have gone out.
  function Step(s: State, e: Event): Option<State> {
    var t := e.thread;
    var phase := PhaseOf(s, t);
    match e
    case Call(_, frame, mask) =>
      if phase != Idle || !Sendable(frame, mask) then None
      else Some(s.(phases := s.phases[t := Waiting(Sent(frame, mask))]))
    case Take(_) =>
      if !phase.Waiting? || s.holder.Some? then None
      else Some(s.(phases := s.phases[t := Writing(phase.w, WireOf(phase.w))], holder := Some(t)))
    case Put(_, count) =>
      if !phase.Writing? || count == 0 || count > |phase.left| then None
      else
        Some(s.(wire := s.wire + phase.left[..count],
                phases := s.phases[t := Writing(phase.w, phase.left[count..])]))
    case Finish(_) =>
      if !phase.Writing? || phase.left != [] then None
      else Some(Released(s, t, phase.w, WireOf(phase.w)))
    case Abort(_) =>
      if !phase.Writing? || phase.left == [] || |phase.left| > |WireOf(phase.w)| then None
      else Some(Released(s, t, phase.w, Gone(phase)))
  }

  // The bytes of a frame that are on the wire already.
  function Gone(phase: Phase): Bytes
    requires phase.Writing? && |phase.left| <= |WireOf(phase.w)|
  {
    WireOf(phase.w)[..|WireOf(phase.w)| - |phase.left|]
  }

  function Released(s: State, t: Thread, w: Written, bytes: Bytes): State {
    s.(phases := s.phases[t := Idle], holder := None, pieces := s.pieces + [Piece(t, w, bytes)])
  }

  function Run(events: seq<Event>): Option<State> {
    if events == [] then Some(START)
    else
      var before := Run(events[..|events| - 1]);
      if before.None? then None else Step(before.value, events[|events| - 1])
  }

  /******* What every step keeps *******/

  function BytesOf(pieces: seq<Piece>): seq<Bytes> {
    seq(|pieces|, i requires 0 <= i < |pieces| => pieces[i].bytes)
  }

  predicate PhaseOk(phase: Phase) {
    match phase
    case Idle => true
    case Waiting(w) => Writable(w)
    case Writing(w, left) => Writable(w) && |left| <= |WireOf(w)| && left == WireOf(w)[|WireOf(w)| - |left|..]
  }

  predicate PieceOk(p: Piece) {
    Writable(p.w) && p.bytes <= WireOf(p.w)
  }

  // The frame under way, as far as it is written.
  function UnderWay(s: State): Bytes {
    if s.holder.None? then []
    else
      var phase := PhaseOf(s, s.holder.value);
      if phase.Writing? && |phase.left| <= |WireOf(phase.w)| then Gone(phase) else []
  }

  ghost predicate PhasesOk(s: State) {
    && (forall t: Thread :: PhaseOk(PhaseOf(s, t)))
    && (forall t: Thread :: PhaseOf(s, t).Writing? <==> (s.holder.Some? && s.holder.value == t))
  }

  predicate PiecesOk(pieces: seq<Piece>) {
    forall i | 0 <= i < |pieces| :: PieceOk(pieces[i])
  }

  ghost predicate Inv(s: State) {
    && PhasesOk(s)
    && PiecesOk(s.pieces)
    && s.wire == Flatten(BytesOf(s.pieces)) + UnderWay(s)
  }

  lemma PiecesSnoc(pieces: seq<Piece>, p: Piece)
    ensures Flatten(BytesOf(pieces + [p])) == Flatten(BytesOf(pieces)) + p.bytes
  {
    assert BytesOf(pieces + [p]) == BytesOf(pieces) + [p.bytes];
    FlattenConcat(BytesOf(pieces), [p.bytes]);
    assert [p.bytes][1..] == [] && Flatten([p.bytes]) == p.bytes + [] == p.bytes;
  }

  lemma CallKeeps(s: State, e: Event)
    requires Inv(s) && Step(s, e).Some? && e.Call?
    ensures Inv(Step(s, e).value)
  {
    var s' := Step(s, e).value;
    FitsWidths(|e.frame.payload|);
    assert forall t: Thread ::
        PhaseOf(s', t) == if t == e.thread then Waiting(Sent(e.frame, e.mask)) else PhaseOf(s, t);
    assert UnderWay(s') == UnderWay(s);
  }

  lemma TakeKeeps(s: State, e: Event)
    requires Inv(s) && Step(s, e).Some? && e.Take?
    ensures Inv(Step(s, e).value)
  {
    var s' := Step(s, e).value;
    var w := PhaseOf(s, e.thread).w;
    assert PhaseOk(PhaseOf(s, e.thread));
    assert forall t: Thread :: PhaseOf(s', t) == if t == e.thread then Writing(w, WireOf(w)) else PhaseOf(s, t);
    assert UnderWay(s') == [];
  }

  lemma PutMoves(phase: Phase, count: nat)
    requires phase.Writing? && PhaseOk(phase) && count <= |phase.left|
    ensures var after := Writing(phase.w, phase.left[count..]);
            PhaseOk(after) && Gone(after) == Gone(phase) + phase.left[..count]
  {
    var wire := WireOf(phase.w);
    var k := |wire| - |phase.left|;
    assert phase.left[..count] == wire[k..k + count] && phase.left[count..] == wire[k + count..];
    assert wire[..k + count] == wire[..k] + wire[k..k + count];
  }

  lemma PutPhases(s: State, e: Event)
    requires PhasesOk(s) && Step(s, e).Some? && e.Put?
    ensures PhasesOk(Step(s, e).value)
    ensures UnderWay(Step(s, e).value) == UnderWay(s) + PhaseOf(s, e.thread).left[..e.count]
  {
    var s' := Step(s, e).value;
    var phase := PhaseOf(s, e.thread);
    assert PhaseOk(phase);
    PutMoves(phase, e.count);
    var after := Writing(phase.w, phase.left[e.count..]);
    assert forall t: Thread :: PhaseOf(s', t) == if t == e.thread then after else PhaseOf(s, t);
    assert s.holder == Some(e.thread) && s'.holder == s.holder;
  }

  lemma PutGrows(s: State, e: Event)
    requires Step(s, e).Some? && e.Put?
    ensures Step(s, e).value.pieces == s.pieces
    ensures Step(s, e).value.wire == s.wire + PhaseOf(s, e.thread).left[..e.count]
  {
  }

  lemma Regroup(a: Bytes, b: Bytes, c: Bytes)
    ensures (a + b) + c == a + (b + c)
  {
  }

  lemma PutKeeps(s: State, e: Event)
    requires Inv(s) && Step(s, e).Some? && e.Put?
    ensures Inv(Step(s, e).value)
  {
    PutPhases(s, e);
    PutGrows(s, e);
    Regroup(Flatten(BytesOf(s.pieces)), UnderWay(s), PhaseOf(s, e.thread).left[..e.count]);
  }

  lemma ReleaseKeeps(s: State, e: Event)
    requires Inv(s) && Step(s, e).Some? && (e.Finish? || e.Abort?)
    ensures Inv(Step(s, e).value)
  {
    var s' := Step(s, e).value;
    var phase := PhaseOf(s, e.thread);
    assert PhaseOk(phase) && s.holder == Some(e.thread);
    var p := Piece(e.thread, phase.w, if e.Finish? then WireOf(phase.w) else Gone(phase));
    assert s'.pieces == s.pieces + [p];
    assert p.bytes == UnderWay(s) && PieceOk(p);
    PiecesSnoc(s.pieces, p);
    assert forall t: Thread :: PhaseOf(s', t) == if t == e.thread then Idle else PhaseOf(s, t);
    assert UnderWay(s') == [];
    assert s.wire + [] == s.wire;
  }

  lemma StepKeeps(s: State, e: Event)
    requires Inv(s) && Step(s, e).Some?
    ensures Inv(Step(s, e).value)
  {
    if e.Call? {
      CallKeeps(s, e);
    } else if e.Take? {
      TakeKeeps(s, e);
    } else if e.Put? {
      PutKeeps(s, e);
    } else {
      ReleaseKeeps(s, e);
    }
  }

  lemma {:induction false} RunInv(events: seq<Event>)
    requires Run(events).Some?
    ensures Inv(Run(events).value)
  {
    if events == [] {
      assert BytesOf([]) == [];
    } else {
      RunInv(events[..|events| - 1]);
      StepKeeps(Run(events[..|events| - 1]).value, events[|events| - 1]);
    }
  }

  /******* Each thread's own order *******/

  // The frames a thread asked to send, in its order.
  function Calls(events: seq<Event>, t: Thread): seq<Written> {
    if events == [] then []
    else
      var e := events[|events| - 1];
      Calls(events[..|events| - 1], t) + Added(e, t)
  }

  function Mine(pieces: seq<Piece>, t: Thread): seq<Written> {
    if pieces == [] then []
    else
      var p := pieces[|pieces| - 1];
      Mine(pieces[..|pieces| - 1], t) + if p.thread == t then [p.w] else []
  }

  function Current(phase: Phase): seq<Written> {
    if phase.Idle? then [] else [phase.w]
  }

  lemma {:induction false} MineSnoc(pieces: seq<Piece>, p: Piece, t: Thread)
    ensures Mine(pieces + [p], t) == Mine(pieces, t) + if p.thread == t then [p.w] else []
  {
    assert (pieces + [p])[..|pieces|] == pieces;
  }

  // On every run each thread's frames reach the wire in the order it sent them.
  lemma {:induction false} OwnOrder(events: seq<Event>, t: Thread)
    requires Run(events).Some?
    ensures Calls(events, t) == Mine(Run(events).value.pieces, t) + Current(PhaseOf(Run(events).value, t))
  {
    if events != [] {
      var front, e := events[..|events| - 1], events[|events| - 1];
      OwnOrder(front, t);
      OrderStep(Run(front).value, e, t);
    }
  }

  function Added(e: Event, t: Thread): seq<Written> {
    if e.Call? && e.thread == t && |e.mask| == 4 then [Sent(e.frame, e.mask)] else []
  }

  lemma {:induction false} OrderReleased(s: State, releasing: Thread, bytes: Bytes, t: Thread)
    requires PhaseOf(s, releasing).Writing?
    ensures var s' := Released(s, releasing, PhaseOf(s, releasing).w, bytes);
            Mine(s'.pieces, t) + Current(PhaseOf(s', t)) == Mine(s.pieces, t) + Current(PhaseOf(s, t))
  {
    var w := PhaseOf(s, releasing).w;
    var s' := Released(s, releasing, w, bytes);
    MineSnoc(s.pieces, Piece(releasing, w, bytes), t);
    if t == releasing {
      assert Current(PhaseOf(s', t)) == [] && Current(PhaseOf(s, t)) == [w];
    } else {
      assert PhaseOf(s', t) == PhaseOf(s, t);
    }
  }

  lemma {:induction false} OrderRelease(s: State, e: Event, t: Thread)
    requires Step(s, e).Some? && (e.Finish? || e.Abort?)
    ensures var s' := Step(s, e).value;
            Mine(s'.pieces, t) + Current(PhaseOf(s', t)) == Mine(s.pieces, t) + Current(PhaseOf(s, t))
  {
    var phase := PhaseOf(s, e.thread);
    OrderReleased(s, e.thread, if e.Finish? then WireOf(phase.w) else Gone(phase), t);
  }

  lemma OrderOther(s: State, e: Event, t: Thread)
    requires Step(s, e).Some? && !e.Finish? && !e.Abort?
    ensures Step(s, e).value.pieces == s.pieces
    ensures Current(PhaseOf(Step(s, e).value, t)) == Current(PhaseOf(s, t)) + Added(e, t)
  {
  }

  lemma {:induction false} OrderStep(s: State, e: Event, t: Thread)
    requires Step(s, e).Some?
    ensures var s' := Step(s, e).value;
            Mine(s'.pieces, t) + Current(PhaseOf(s', t)) == Mine(s.pieces, t) + Current(PhaseOf(s, t)) + Added(e, t)
  {
    if e.Finish? || e.Abort? {
      OrderRelease(s, e, t);
    } else {
      OrderOther(s, e, t);
    }
  }

  /******* Whole frames *******/

  predicate Whole(p: Piece) { p.bytes == WireOf(p.w) }

  // The frames that went out whole, in the order of the lock.
  function Log(pieces: seq<Piece>): seq<Written> {
    if pieces == [] then []
    else
      var p := pieces[|pieces| - 1];
      Log(pieces[..|pieces| - 1]) + if Whole(p) then [p.w] else []
  }

  // Some send raised with part of its frame on the wire.
  predicate Torn(pieces: seq<Piece>) {
    exists i | 0 <= i < |pieces| :: !Whole(pieces[i]) && pieces[i].bytes != []
  }

  lemma {:induction false} LogWritable(pieces: seq<Piece>)
    requires PiecesOk(pieces)
    ensures AllWritable(Log(pieces))
  {
    if pieces != [] { LogWritable(pieces[..|pieces| - 1]); }
  }

  lemma WireSnoc(list: seq<Written>, w: Written)
    requires AllWritable(list) && Writable(w)
    ensures AllWritable(list + [w]) && Wire(list + [w]) == Wire(list) + WireOf(w)
  {
    WireOfConcat(list, [w]);
    assert Pieces([w]) == [WireOne(w)];
    assert [WireOne(w)][1..] == [] && Flatten([WireOne(w)]) == WireOne(w) + [] == WireOne(w);
  }

  // The bytes of the turns are the whole frames, and something longer when one is torn.
  lemma {:induction false} BytesAreLog(pieces: seq<Piece>)
    requires PiecesOk(pieces)
    ensures AllWritable(Log(pieces))
    ensures !Torn(pieces) ==> Flatten(BytesOf(pieces)) == Wire(Log(pieces))
    ensures Torn(pieces) ==> |Flatten(BytesOf(pieces))| > |Wire(Log(pieces))|
  {
    if pieces == [] {
      assert BytesOf(pieces) == [] && Pieces([]) == [];
    } else {
      var front, p := pieces[..|pieces| - 1], pieces[|pieces| - 1];
      assert PieceOk(p) && pieces == front + [p];
      BytesAreLog(front);
      PiecesSnoc(front, p);
      TornSnoc(front, p);
      if Whole(p) {
        WireSnoc(Log(front), p.w);
      } else {
        assert Log(pieces) == Log(front);
      }
    }
  }

  lemma TornSnoc(front: seq<Piece>, p: Piece)
    ensures Torn(front + [p]) <==> Torn(front) || (!Whole(p) && p.bytes != [])
  {
    if Torn(front) {
      var i :| 0 <= i < |front| && !Whole(front[i]) && front[i].bytes != [];
      assert (front + [p])[i] == front[i];
    }
    if !Whole(p) && p.bytes != [] {
      assert (front + [p])[|front|] == p;
    }
  }

  // When no send is under way, the wire is the whole frames in the order of the lock
  // exactly if no send raised part way.
  lemma {:induction false} WholeFramesIff(events: seq<Event>)
    requires Run(events).Some? && Run(events).value.holder.None?
    ensures AllWritable(Log(Run(events).value.pieces))
    ensures Run(events).value.wire == Wire(Log(Run(events).value.pieces)) <==> !Torn(Run(events).value.pieces)
  {
    RunInv(events);
    var s := Run(events).value;
    BytesAreLog(s.pieces);
    assert s.wire == Flatten(BytesOf(s.pieces));
  }

  // Then it decodes to those frames, whatever follows, and each thread's frames are in
  // its own order among them.
  lemma {:induction false} WireDecodes(events: seq<Event>, tail: Bytes)
    requires Run(events).Some? && Run(events).value.holder.None? && !Torn(Run(events).value.pieces)
    requires WithinLimit(Log(Run(events).value.pieces))
    ensures var s := Run(events).value;
            Decode(|Log(s.pieces)|, s.wire + tail) == Some((FramesOf(Log(s.pieces)), tail))
  {
    WholeFramesIff(events);
    DecodeOfWire(Log(Run(events).value.pieces), tail);
  }

  // With no raise at all nothing is torn and every turn is in the log.
  lemma {:induction false} WithoutAborts(events: seq<Event>)
    requires Run(events).Some? && forall i | 0 <= i < |events| :: !events[i].Abort?
    ensures !Torn(Run(events).value.pieces)
    ensures forall i | 0 <= i < |Run(events).value.pieces| :: Whole(Run(events).value.pieces[i])
  {
    if events != [] {
      WithoutAborts(events[..|events| - 1]);
      assert !events[|events| - 1].Abort?;
    }
  }

  lemma {:induction false} LogIsPieces(pieces: seq<Piece>)
    requires forall i | 0 <= i < |pieces| :: Whole(pieces[i])
    ensures |Log(pieces)| == |pieces|
    ensures forall i | 0 <= i < |pieces| :: Log(pieces)[i] == pieces[i].w
  {
    if pieces != [] {
      var front, p := pieces[..|pieces| - 1], pieces[|pieces| - 1];
      forall i | 0 <= i < |front| ensures Whole(front[i]) { assert front[i] == pieces[i]; }
      LogIsPieces(front);
      assert Whole(p) && Log(pieces) == Log(front) + [p.w];
      forall i | 0 <= i < |pieces| ensures Log(pieces)[i] == pieces[i].w {
        if i < |front| { assert Log(pieces)[i] == Log(front)[i] && front[i] == pieces[i]; }
      }
    }
  }

  function FramesIn(pieces: seq<Piece>): seq<Frame> {
    seq(|pieces|, i requires 0 <= i < |pieces| => pieces[i].w.frame)
  }

  // Every schedule without a raise: between sends the wire decodes to an interleaving of
  // the threads' frames, each thread's own in its order.
  lemma {:induction false} SendersInterleave(events: seq<Event>, tail: Bytes)
    requires Run(events).Some? && Run(events).value.holder.None?
    requires forall i | 0 <= i < |events| :: !events[i].Abort?
    requires forall i | 0 <= i < |Run(events).value.pieces| :: |Run(events).value.pieces[i].w.frame.payload| <= LIMIT
    ensures var s := Run(events).value;
            && Decode(|s.pieces|, s.wire + tail) == Some((FramesIn(s.pieces), tail))
            && forall t: Thread :: Calls(events, t) == Mine(s.pieces, t) + Current(PhaseOf(s, t))
  {
    var s := Run(events).value;
    WithoutAborts(events);
    LogIsPieces(s.pieces);
    WireDecodes(events, tail);
    assert FramesOf(Log(s.pieces)) == FramesIn(s.pieces);
    forall t: Thread ensures Calls(events, t) == Mine(s.pieces, t) + Current(PhaseOf(s, t)) {
      OwnOrder(events, t);
    }
  }

  /******* A torn send *******/

  lemma {:induction false} RunSnoc(events: seq<Event>, e: Event)
    requires Run(events).Some?
    ensures Run(events + [e]) == Step(Run(events).value, e)
  {
    assert (events + [e])[..|events|] == events;
  }

  // One send that puts some bytes on the wire and raises: nothing is under way, the lock
  // is free for the other threads, and the wire is not the wire of any frames.
  lemma TornRun(t: Thread, frame: Frame, mask: Bytes, n: nat)
    requires |mask| == 4 && frame.opcode < 16 && Fits(|frame.payload|, 8) && 0 < n < |Encode(frame, mask)|
    ensures var s := Run([Call(t, frame, mask), Take(t), Put(t, n), Abort(t)]);
            && s.Some? && s.value.holder.None? && Torn(s.value.pieces)
            && forall list | AllWritable(list) :: s.value.wire != Wire(list)
  {
    var w := Sent(frame, mask);
    FitsWidths(|frame.payload|);
    var bytes := WireOf(w);
    assert |bytes| == |Encode(frame, mask)|;
    var one := START.(phases := map[t := Waiting(w)]);
    var two := one.(phases := map[t := Writing(w, bytes)], holder := Some(t));
    var three := two.(wire := bytes[..n], phases := map[t := Writing(w, bytes[n..])]);
    var events := [Call(t, frame, mask), Take(t), Put(t, n), Abort(t)];
    TornSteps(t, frame, mask, n, one, two, three);
    assert events == [] + [Call(t, frame, mask)] + [Take(t)] + [Put(t, n)] + [Abort(t)];
    RunSnoc([], Call(t, frame, mask));
    RunSnoc([Call(t, frame, mask)], Take(t));
    RunSnoc([Call(t, frame, mask)] + [Take(t)], Put(t, n));
    RunSnoc([Call(t, frame, mask)] + [Take(t)] + [Put(t, n)], Abort(t));
    var s := Run(events).value;
    assert s.pieces[0] == Piece(t, w, bytes[..n]) && !Whole(s.pieces[0]) && s.pieces[0].bytes != [];
    forall list | AllWritable(list) ensures s.wire != Wire(list) {
      PartIsNoWire([], w, n, list);
      WireOfNothing();
      assert [] + bytes[..n] == bytes[..n];
    }
  }

  lemma TornSteps(t: Thread, frame: Frame, mask: Bytes, n: nat, one: State, two: State, three: State)
    requires Sendable(frame, mask) && Writable(Sent(frame, mask)) && 0 < n < |WireOf(Sent(frame, mask))|
    requires one == START.(phases := map[t := Waiting(Sent(frame, mask))])
    requires two == one.(phases := map[t := Writing(Sent(frame, mask), WireOf(Sent(frame, mask)))], holder := Some(t))
    requires three == two.(wire := WireOf(Sent(frame, mask))[..n],
                           phases := map[t := Writing(Sent(frame, mask), WireOf(Sent(frame, mask))[n..])])
    ensures Step(START, Call(t, frame, mask)) == Some(one) && Step(one, Take(t)) == Some(two)
    ensures Step(two, Put(t, n)) == Some(three)
    ensures Step(three, Abort(t)) ==
            Some(State(three.wire, map[t := Idle], None, [Piece(t, Sent(frame, mask), WireOf(Sent(frame, mask))[..n])]))
  {
    var w, bytes := Sent(frame, mask), WireOf(Sent(frame, mask));
    assert START.phases[t := Waiting(w)] == one.phases;
    assert one.phases[t := Writing(w, bytes)] == two.phases;
    assert two.phases[t := Writing(w, bytes[n..])] == three.phases;
    assert three.phases[t := Idle] == map[t := Idle];
    assert [] + bytes[..n] == bytes[..n] && bytes[..][n..] == bytes[n..];
    var phase := PhaseOf(three, t);
    assert phase == Writing(w, bytes[n..]) && bytes[n..] != [] && |bytes| - |bytes[n..]| == n;
    assert Gone(phase) == bytes[..n];
    assert three.pieces + [Piece(t, w, bytes[..n])] == [Piece(t, w, bytes[..n])];
    assert Step(three, Abort(t)) == Some(Released(three, t, w, bytes[..n]));
  }
}
