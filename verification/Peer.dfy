/** One connection between two peers as a transition system: handshake, first
    heartbeat, heartbeat rounds and command streams, every step of either side
    interleaved with every step of the other.

    Streams are accepted in the order their opener opened them (section 3.2 of
    RFC 9000) and nothing on the wire says what a stream is for. The callbacks
    are those of the application protocol: only the accepting side's handshake
    callback can fail. */
module Peer {
  import opened Wire

  datatype Side = Dialler | Acceptor

  function Other(x: Side): Side {
    if x.Dialler? then Acceptor else Dialler
  }

  /** What a frame was written as. */
  datatype Frame = HandshakeFrame | BeatFrame | AckFrame | CommandFrame | ErrorFrame

  datatype Purpose = ForHandshake | ForHeartbeat | ForCommand

  /** `why` is what the opener opened the stream for, which nobody else can see;
      `commanded` says that its task has written its command. */
  datatype Channel = Channel(why: Purpose, fwd: seq<Frame>, back: seq<Frame>, commanded: bool)

  /** The streams one side has opened, and what the other side accepted each
      of the first ones for. */
  datatype Line = Line(channels: seq<Channel>, uses: seq<Purpose>)

  datatype StreamId = StreamId(opener: Side, index: nat)

  /** Where a side's own program stands. */
  datatype Stage =
    | DialOpen | DialWrite | DialRead             // handshake_as_client
    | AcceptStream | AcceptRead | AcceptReply     // handshake
    | Registered                                  // handle in the registry, node in the queue
    | FirstStream                                 // serve: obtain the heartbeat stream
    | BeatWrite | BeatRead | BeatAck              // heartbeat_as_client
    | AnswerRead | AnswerWrite | AnswerAck        // heartbeat

  /** `sent` logs what the side wrote on the heartbeat stream; `rounds` counts
      its completed rounds, so it is running when `rounds` is positive. */
  datatype Peer = Peer(
    stage: Stage,
    stopped: bool,
    asClient: Option<bool>,
    session: Option<StreamId>,
    beat: Option<StreamId>,
    rounds: nat,
    sent: seq<Frame>,
    queued: nat,
    spawned: nat)

  /** `confused` is set when a read meets a frame written as something else. */
  datatype State = State(dialler: Peer, acceptor: Peer, fromDialler: Line, fromAcceptor: Line, confused: bool)

  function NewPeer(stage: Stage): Peer {
    Peer(stage, false, None, None, None, 0, [], 0, 0)
  }

  const Initial := State(NewPeer(DialOpen), NewPeer(AcceptStream), Line([], []), Line([], []), false)

  function Get(s: State, x: Side): Peer {
    if x.Dialler? then s.dialler else s.acceptor
  }

  function Put(s: State, x: Side, p: Peer): State {
    if x.Dialler? then s.(dialler := p) else s.(acceptor := p)
  }

  function LineOf(s: State, x: Side): Line {
    if x.Dialler? then s.fromDialler else s.fromAcceptor
  }

  function PutLine(s: State, x: Side, l: Line): State {
    if x.Dialler? then s.(fromDialler := l) else s.(fromAcceptor := l)
  }

  predicate Exists(s: State, id: StreamId) {
    id.index < |LineOf(s, id.opener).channels|
  }

  // ----- primitive actions ---------------------------------------------------

  function OpenStream(s: State, x: Side, why: Purpose): State {
    var l := LineOf(s, x);
    PutLine(s, x, l.(channels := l.channels + [Channel(why, [], [], false)]))
  }

  /** The next stream the other side has opened and `x` has not yet accepted. */
  predicate CanAccept(s: State, x: Side) {
    |LineOf(s, Other(x)).uses| < |LineOf(s, Other(x)).channels|
  }

  function NextId(s: State, x: Side): StreamId {
    StreamId(Other(x), |LineOf(s, Other(x)).uses|)
  }

  function AcceptFor(s: State, x: Side, what: Purpose): State {
    var l := LineOf(s, Other(x));
    PutLine(s, Other(x), l.(uses := l.uses + [what]))
  }

  function Incoming(s: State, x: Side, id: StreamId): seq<Frame>
    requires Exists(s, id)
  {
    var c := LineOf(s, id.opener).channels[id.index];
    if id.opener == x then c.back else c.fwd
  }

  function Write(s: State, x: Side, id: StreamId, f: Frame): State
    requires Exists(s, id)
  {
    var l := LineOf(s, id.opener);
    var c := l.channels[id.index];
    var c' := if id.opener == x then c.(fwd := c.fwd + [f]) else c.(back := c.back + [f]);
    PutLine(s, id.opener, l.(channels := l.channels[id.index := c']))
  }

  /** A task writes its command on the stream opened for it. */
  function SendCommand(s: State, x: Side, i: nat): State
    requires Exists(s, StreamId(x, i))
  {
    var l := LineOf(s, x);
    var c := l.channels[i];
    PutLine(s, x, l.(channels := l.channels[i := c.(fwd := c.fwd + [CommandFrame], commanded := true)]))
  }

  function Consume(s: State, x: Side, id: StreamId): State
    requires Exists(s, id) && Incoming(s, x, id) != []
  {
    var l := LineOf(s, id.opener);
    var c := l.channels[id.index];
    var c' := if id.opener == x then c.(back := c.back[1..]) else c.(fwd := c.fwd[1..]);
    PutLine(s, id.opener, l.(channels := l.channels[id.index := c']))
  }

  /** Takes the next frame at an expected type: an error frame ends the side, a
      frame of another type is decoded wrongly. */
  function ReadAs(s: State, x: Side, id: StreamId, expected: Frame, then_: Stage): State
    requires Exists(s, id) && Incoming(s, x, id) != []
  {
    var f := Incoming(s, x, id)[0];
    var s' := Consume(s, x, id);
    if f.ErrorFrame? then Put(s', x, Get(s', x).(stopped := true))
    else Put(s', x, Get(s', x).(stage := then_)).(confused := s.confused || f != expected)
  }

  // ----- steps ------------------------------------------------------------------

  datatype Event =
    | OpenSession
    | WriteHandshake
    | ReadHandshakeReply
    | AcceptSession
    | ReadHandshake
    | ReplyHandshake(admit: bool)
    | StartServing(side: Side)
    | TakeBeatStream(side: Side)
    | BeatStep(side: Side)
    | QueueTask(side: Side)
    | SpawnTask(side: Side)
    | OpenTaskStream(side: Side)
    | WriteCommand(side: Side, index: nat)
    | AcceptCommand(side: Side)
    | ReadCommand(side: Side, index: nat)
    | Stop(side: Side)

  predicate InHeartbeat(p: Peer) {
    (p.stage.BeatWrite? || p.stage.BeatRead? || p.stage.BeatAck? ||
     p.stage.AnswerRead? || p.stage.AnswerWrite? || p.stage.AnswerAck?)
  }

  /** The first heartbeat is over, so streams are accepted and tasks started; both
      go on after a later heartbeat has failed, until the cancelled token is seen. */
  predicate Running(p: Peer) {
    InHeartbeat(p) && p.rounds > 0
  }

  predicate Handshaken(p: Peer) {
    p.asClient.Some?
  }

  predicate SessionReady(s: State, p: Peer) {
    p.session.Some? && Exists(s, p.session.value)
  }

  predicate BeatReady(s: State, p: Peer) {
    p.beat.Some? && Exists(s, p.beat.value)
  }

  predicate Enabled(s: State, e: Event) {
    match e
    case OpenSession => s.dialler.stage.DialOpen? && !s.dialler.stopped
    case WriteHandshake => s.dialler.stage.DialWrite? && !s.dialler.stopped && SessionReady(s, s.dialler)
    case ReadHandshakeReply =>
      s.dialler.stage.DialRead? && !s.dialler.stopped && SessionReady(s, s.dialler)
      && Incoming(s, Dialler, s.dialler.session.value) != []
    case AcceptSession => s.acceptor.stage.AcceptStream? && !s.acceptor.stopped && CanAccept(s, Acceptor)
    case ReadHandshake =>
      s.acceptor.stage.AcceptRead? && !s.acceptor.stopped && SessionReady(s, s.acceptor)
      && Incoming(s, Acceptor, s.acceptor.session.value) != []
    case ReplyHandshake(_) => s.acceptor.stage.AcceptReply? && !s.acceptor.stopped && SessionReady(s, s.acceptor)
    case StartServing(x) => Get(s, x).stage.Registered? && !Get(s, x).stopped
    case TakeBeatStream(x) =>
      var p := Get(s, x);
      p.stage.FirstStream? && !p.stopped && p.asClient.Some? && (p.asClient.value || CanAccept(s, x))
    case BeatStep(x) =>
      var p := Get(s, x);
      InHeartbeat(p) && !p.stopped && BeatReady(s, p)
      && ((p.stage.BeatRead? || p.stage.AnswerRead? || p.stage.AnswerAck?) ==> Incoming(s, x, p.beat.value) != [])
    case QueueTask(x) => Handshaken(Get(s, x))
    case SpawnTask(x) => Running(Get(s, x)) && Get(s, x).queued > 0
    case OpenTaskStream(x) => Get(s, x).spawned > 0
    case WriteCommand(x, i) =>
      Exists(s, StreamId(x, i)) && LineOf(s, x).channels[i].why.ForCommand? && !LineOf(s, x).channels[i].commanded
    case AcceptCommand(x) => Running(Get(s, x)) && CanAccept(s, x)
    case ReadCommand(x, i) =>
      i < |LineOf(s, Other(x)).uses| && LineOf(s, Other(x)).uses[i].ForCommand?
      && Exists(s, StreamId(Other(x), i)) && Incoming(s, x, StreamId(Other(x), i)) != []
    case Stop(x) => !Get(s, x).stopped
  }

  function Apply(s: State, e: Event): State
    requires Enabled(s, e)
  {
    match e
    case OpenSession =>
      var id := StreamId(Dialler, |s.fromDialler.channels|);
      Put(OpenStream(s, Dialler, ForHandshake), Dialler, s.dialler.(stage := DialWrite, session := Some(id)))
    case WriteHandshake =>
      Put(Write(s, Dialler, s.dialler.session.value, HandshakeFrame), Dialler, s.dialler.(stage := DialRead))
    case ReadHandshakeReply =>
      var s' := ReadAs(s, Dialler, s.dialler.session.value, HandshakeFrame, Registered);
      if s'.dialler.stopped then s' else s'.(dialler := s'.dialler.(asClient := Some(false)))
    case AcceptSession =>
      Put(AcceptFor(s, Acceptor, ForHandshake), Acceptor,
          s.acceptor.(stage := AcceptRead, session := Some(NextId(s, Acceptor))))
    case ReadHandshake => ReadAs(s, Acceptor, s.acceptor.session.value, HandshakeFrame, AcceptReply)
    case ReplyHandshake(admit) =>
      var id := s.acceptor.session.value;
      if admit then
        Put(Write(s, Acceptor, id, HandshakeFrame), Acceptor, s.acceptor.(stage := Registered, asClient := Some(true)))
      else Put(Write(s, Acceptor, id, ErrorFrame), Acceptor, s.acceptor.(stopped := true))
    case StartServing(x) => Put(s, x, Get(s, x).(stage := FirstStream))
    case TakeBeatStream(x) =>
      var p := Get(s, x);
      if p.asClient.value then
        var id := StreamId(x, |LineOf(s, x).channels|);
        Put(OpenStream(s, x, ForHeartbeat), x, p.(stage := BeatWrite, beat := Some(id)))
      else
        Put(AcceptFor(s, x, ForHeartbeat), x, p.(stage := AnswerRead, beat := Some(NextId(s, x))))
    case BeatStep(x) => ApplyBeat(s, x)
    case QueueTask(x) => Put(s, x, Get(s, x).(queued := Get(s, x).queued + 1))
    case SpawnTask(x) =>
      Put(s, x, Get(s, x).(queued := Get(s, x).queued - 1, spawned := Get(s, x).spawned + 1))
    case OpenTaskStream(x) =>
      Put(OpenStream(s, x, ForCommand), x, Get(s, x).(spawned := Get(s, x).spawned - 1))
    case WriteCommand(x, i) => SendCommand(s, x, i)
    case AcceptCommand(x) => AcceptFor(s, x, ForCommand)
    case ReadCommand(x, i) =>
      var id := StreamId(Other(x), i);
      Consume(s, x, id).(confused := s.confused || Incoming(s, x, id)[0] != CommandFrame)
    case Stop(x) => Put(s, x, Get(s, x).(stopped := true))
  }

  function ApplyBeat(s: State, x: Side): State
    requires Enabled(s, BeatStep(x))
  {
    var p := Get(s, x);
    var id := p.beat.value;
    match p.stage
    case BeatWrite => Put(Write(s, x, id, BeatFrame), x, p.(stage := BeatRead, sent := p.sent + [BeatFrame]))
    case BeatRead => ReadAs(s, x, id, BeatFrame, BeatAck)
    case BeatAck =>
      Put(Write(s, x, id, AckFrame), x, p.(stage := BeatWrite, sent := p.sent + [AckFrame], rounds := p.rounds + 1))
    case AnswerRead => ReadAs(s, x, id, BeatFrame, AnswerWrite)
    case AnswerWrite => Put(Write(s, x, id, BeatFrame), x, p.(stage := AnswerAck, sent := p.sent + [BeatFrame]))
    case AnswerAck =>
      var s' := ReadAs(s, x, id, AckFrame, AnswerRead);
      var p' := Get(s', x);
      if p'.stopped then s' else Put(s', x, p'.(rounds := p'.rounds + 1))
  }

  function Exec(s: State, es: seq<Event>): Option<State>
    decreases |es|
  {
    if es == [] then Some(s)
    else if Enabled(s, es[0]) then Exec(Apply(s, es[0]), es[1..])
    else None
  }

  // ----- the invariant -----------------------------------------------------------

  /** The frames the opener of the heartbeat writes: beat, ack, beat, ack, ... */
  function BeatsAndAcks(n: nat): (r: seq<Frame>)
    ensures |r| == n && forall i :: 0 <= i < n ==> r[i] == if i % 2 == 0 then BeatFrame else AckFrame
  {
    seq(n, i => if i % 2 == 0 then BeatFrame else AckFrame)
  }

  function Beats(n: nat): (r: seq<Frame>)
    ensures |r| == n && forall i :: 0 <= i < n ==> r[i] == BeatFrame
  {
    seq(n, _ => BeatFrame)
  }

  predicate Dialling(g: Stage) {
    g.DialOpen? || g.DialWrite? || g.DialRead?
  }

  predicate Admitting(g: Stage) {
    g.AcceptStream? || g.AcceptRead? || g.AcceptReply?
  }

  predicate BeforeReply(g: Stage) {
    g.AcceptStream? || g.AcceptRead?
  }

  predicate Opening(g: Stage) {
    g.BeatWrite? || g.BeatRead? || g.BeatAck?
  }

  predicate Answering(g: Stage) {
    g.AnswerRead? || g.AnswerWrite? || g.AnswerAck?
  }

  /** How many frames each side has written to and read from the heartbeat
      stream after `rounds` whole rounds and at a given stage of the next. */
  function OpenerWritten(g: Stage, rounds: nat): nat {
    2 * rounds + if g.BeatRead? || g.BeatAck? then 1 else 0
  }

  function OpenerRead(g: Stage, rounds: nat): nat {
    rounds + if g.BeatAck? then 1 else 0
  }

  function AnswererWritten(g: Stage, rounds: nat): nat {
    rounds + if g.AnswerAck? then 1 else 0
  }

  function AnswererRead(g: Stage, rounds: nat): nat {
    2 * rounds + if g.AnswerWrite? || g.AnswerAck? then 1 else 0
  }

  predicate DiallerShape(p: Peer) {
    && (Dialling(p.stage) || p.stage.Registered? || p.stage.FirstStream? || Answering(p.stage))
    && p.asClient == (if Dialling(p.stage) then None else Some(false))
    && p.session == (if p.stage.DialOpen? then None else Some(StreamId(Dialler, 0)))
    && p.beat == (if Answering(p.stage) then Some(StreamId(Acceptor, 0)) else None)
    && (!Answering(p.stage) ==> p.rounds == 0)
    && (p.rounds == 0 ==> p.spawned == 0)
  }

  predicate AcceptorShape(p: Peer) {
    && (Admitting(p.stage) || p.stage.Registered? || p.stage.FirstStream? || Opening(p.stage))
    && p.asClient == (if Admitting(p.stage) then None else Some(true))
    && p.session == (if p.stage.AcceptStream? then None else Some(StreamId(Dialler, 0)))
    && p.beat == (if Opening(p.stage) then Some(StreamId(Acceptor, 0)) else None)
    && (!Opening(p.stage) ==> p.rounds == 0)
    && (p.rounds == 0 ==> p.spawned == 0)
  }

  predicate CommandChannel(c: Channel) {
    c.why.ForCommand? && c.back == [] && (c.fwd == [] || (c.commanded && c.fwd == [CommandFrame]))
  }

  /** The first stream of a line serves `first`, every later one a command, and
      each was accepted for what it was opened for. */
  predicate LineShape(l: Line, first: Purpose) {
    && |l.uses| <= |l.channels|
    && (l.channels != [] ==> l.channels[0].why == first)
    && (forall i :: 0 < i < |l.channels| ==> CommandChannel(l.channels[i]))
    && (forall i :: 0 <= i < |l.uses| ==> l.uses[i] == if i == 0 then first else ForCommand)
  }

  /** Which streams exist and which are accepted, by how far each side is. */
  predicate Progressed(d: Stage, dRounds: nat, a: Stage, aRounds: nat, fromDialler: Line, fromAcceptor: Line) {
    && (|fromDialler.channels| == 0 <==> d.DialOpen?)
    && (|fromDialler.uses| == 0 <==> a.AcceptStream?)
    && (|fromDialler.channels| > 1 ==> dRounds > 0)
    && (|fromDialler.uses| > 1 ==> aRounds > 0)
    && (|fromAcceptor.channels| == 0 <==> !Opening(a))
    && (|fromAcceptor.uses| == 0 <==> !Answering(d))
    && (|fromAcceptor.channels| > 1 ==> aRounds > 0)
    && (|fromAcceptor.uses| > 1 ==> dRounds > 0)
  }

  /** The contents of the handshake stream. */
  predicate HandshakeInFlight(d: Stage, a: Stage, rejected: bool, c: Channel) {
    && c.fwd == (if !d.DialWrite? && BeforeReply(a) then [HandshakeFrame] else [])
    && (d.DialWrite? ==> BeforeReply(a))
    && (!Dialling(d) ==> !Admitting(a))
    && (if BeforeReply(a) then c.back == []
        else if a.AcceptReply? then c.back == [] || (rejected && c.back == [ErrorFrame])
        else c.back == if d.DialRead? then [HandshakeFrame] else [])
  }

  /** Counts of frames on the heartbeat stream. */
  datatype Traffic = Traffic(openerWrote: nat, openerRead: nat, answererWrote: nat, answererRead: nat)

  function TrafficOf(s: State): Traffic {
    var d, a := s.dialler, s.acceptor;
    Traffic(OpenerWritten(a.stage, a.rounds), OpenerRead(a.stage, a.rounds),
            AnswererWritten(d.stage, d.rounds), AnswererRead(d.stage, d.rounds))
  }

  predicate Consistent(t: Traffic) {
    t.answererRead <= t.openerWrote && t.openerRead <= t.answererWrote
  }

  /** What both sides have written on the heartbeat stream. */
  predicate BeatLogs(t: Traffic, dSent: seq<Frame>, aSent: seq<Frame>) {
    aSent == BeatsAndAcks(t.openerWrote) && dSent == Beats(t.answererWrote)
  }

  /** The contents of the heartbeat stream. */
  predicate BeatInFlight(t: Traffic, c: Channel)
    requires Consistent(t)
  {
    && c.fwd == BeatsAndAcks(t.openerWrote)[t.answererRead..]
    && c.back == Beats(t.answererWrote)[t.openerRead..]
  }

  predicate Shapes(s: State) {
    && DiallerShape(s.dialler)
    && AcceptorShape(s.acceptor)
    && LineShape(s.fromDialler, ForHandshake)
    && LineShape(s.fromAcceptor, ForHeartbeat)
    && Progressed(s.dialler.stage, s.dialler.rounds, s.acceptor.stage, s.acceptor.rounds, s.fromDialler, s.fromAcceptor)
  }

  predicate Contents(s: State) {
    var d, a := s.dialler, s.acceptor;
    && (if s.fromDialler.channels != [] then HandshakeInFlight(d.stage, a.stage, a.stopped, s.fromDialler.channels[0])
        else BeforeReply(a.stage))
    && Consistent(TrafficOf(s))
    && BeatLogs(TrafficOf(s), d.sent, a.sent)
    && (s.fromAcceptor.channels != [] ==> BeatInFlight(TrafficOf(s), s.fromAcceptor.channels[0]))
  }

  predicate Inv(s: State) {
    Shapes(s) && Contents(s) && !s.confused
  }

  lemma InvInitial()
    ensures Inv(Initial)
  {
    assert BeatsAndAcks(0) == [] && Beats(0) == [];
  }

  // ----- every step keeps it -------------------------------------------------------

  lemma DialStepsKeepInv(s: State, e: Event)
    requires Inv(s) && Enabled(s, e)
    requires e.OpenSession? || e.WriteHandshake?
    ensures Inv(Apply(s, e))
  {
    hide BeatsAndAcks, Beats, BeatInFlight, BeatLogs;
  }

  lemma ReadReplyKeepsInv(s: State, e: Event)
    requires Inv(s) && Enabled(s, e) && e.ReadHandshakeReply?
    ensures Inv(Apply(s, e))
  {
    hide BeatsAndAcks, Beats, BeatInFlight, BeatLogs;
  }

  lemma AdmitStepsKeepInv(s: State, e: Event)
    requires Inv(s) && Enabled(s, e)
    requires e.AcceptSession? || e.ReadHandshake? || e.ReplyHandshake?
    ensures Inv(Apply(s, e))
  {
    hide BeatsAndAcks, Beats, BeatInFlight, BeatLogs;
  }

  lemma StartServingKeepsInv(s: State, e: Event)
    requires Inv(s) && Enabled(s, e) && e.StartServing?
    ensures Inv(Apply(s, e))
  {
    hide BeatsAndAcks, Beats, BeatInFlight, BeatLogs, LineShape;
  }

  lemma QueueStepsKeepInv(s: State, e: Event)
    requires Inv(s) && Enabled(s, e) && (e.QueueTask? || e.SpawnTask?)
    ensures Inv(Apply(s, e))
  {
    hide LineShape, Progressed, Consistent, BeatLogs, BeatInFlight, HandshakeInFlight;
  }

  lemma StopKeepsInv(s: State, e: Event)
    requires Inv(s) && Enabled(s, e) && e.Stop?
    ensures Inv(Apply(s, e))
  {
    hide LineShape, Progressed, Consistent, BeatLogs, BeatInFlight;
  }

  /** Changing a command stream, or adding one behind the first, leaves the
      first streams and what they hold alone. */
  lemma CommandTrafficKeepsContents(s: State, s': State)
    requires Contents(s) && s'.dialler.(queued := 0, spawned := 0) == s.dialler.(queued := 0, spawned := 0)
    requires s'.acceptor.(queued := 0, spawned := 0) == s.acceptor.(queued := 0, spawned := 0)
    requires (s.fromDialler.channels == []) == (s'.fromDialler.channels == [])
    requires (s.fromAcceptor.channels == []) == (s'.fromAcceptor.channels == [])
    requires s.fromDialler.channels != [] ==> s'.fromDialler.channels[0] == s.fromDialler.channels[0]
    requires s.fromAcceptor.channels != [] ==> s'.fromAcceptor.channels[0] == s.fromAcceptor.channels[0]
    ensures Contents(s')
  {
    hide Consistent, BeatLogs, BeatInFlight, HandshakeInFlight;
    assert s'.dialler.stage == s.dialler.(queued := 0, spawned := 0).stage;
    assert s'.acceptor.stage == s.acceptor.(queued := 0, spawned := 0).stage;
  }

  lemma OpenTaskStreamKeepsInv(s: State, x: Side)
    requires Inv(s) && Enabled(s, OpenTaskStream(x))
    ensures Inv(Apply(s, OpenTaskStream(x)))
  {
    hide Contents;
    var s' := Apply(s, OpenTaskStream(x));
    assert LineOf(s', x).channels == LineOf(s, x).channels + [Channel(ForCommand, [], [], false)];
    CommandTrafficKeepsContents(s, s');
  }

  lemma WriteCommandKeepsInv(s: State, x: Side, i: nat)
    requires Inv(s) && Enabled(s, WriteCommand(x, i))
    ensures Inv(Apply(s, WriteCommand(x, i)))
  {
    hide Contents;
    CommandTrafficKeepsContents(s, Apply(s, WriteCommand(x, i)));
  }

  lemma AcceptCommandKeepsInv(s: State, x: Side)
    requires Inv(s) && Enabled(s, AcceptCommand(x))
    ensures Inv(Apply(s, AcceptCommand(x)))
  {
    hide Contents;
    CommandTrafficKeepsContents(s, Apply(s, AcceptCommand(x)));
  }

  lemma ReadCommandKeepsInv(s: State, x: Side, i: nat)
    requires Inv(s) && Enabled(s, ReadCommand(x, i))
    ensures Inv(Apply(s, ReadCommand(x, i)))
  {
    hide Contents;
    CommandTrafficKeepsContents(s, Apply(s, ReadCommand(x, i)));
  }

  lemma TakeBeatStreamKeepsInv(s: State, x: Side)
    requires Inv(s) && Enabled(s, TakeBeatStream(x))
    ensures Inv(Apply(s, TakeBeatStream(x)))
  {
  }

  /** The frame the opener writes at position `n`. */
  function NthOfOpener(n: nat): Frame {
    if n % 2 == 0 then BeatFrame else AckFrame
  }

  lemma OpenerWrites(t: Traffic, c: Channel, dSent: seq<Frame>, aSent: seq<Frame>)
    requires Consistent(t) && BeatInFlight(t, c) && BeatLogs(t, dSent, aSent)
    ensures var t', f := t.(openerWrote := t.openerWrote + 1), NthOfOpener(t.openerWrote);
            Consistent(t') && BeatInFlight(t', c.(fwd := c.fwd + [f])) && BeatLogs(t', dSent, aSent + [f])
  {
    var n := t.openerWrote;
    assert BeatsAndAcks(n + 1) == BeatsAndAcks(n) + [NthOfOpener(n)];
    hide Beats, BeatsAndAcks;
  }

  lemma AnswererWrites(t: Traffic, c: Channel, dSent: seq<Frame>, aSent: seq<Frame>)
    requires Consistent(t) && BeatInFlight(t, c) && BeatLogs(t, dSent, aSent)
    ensures var t' := t.(answererWrote := t.answererWrote + 1);
            Consistent(t') && BeatInFlight(t', c.(back := c.back + [BeatFrame]))
            && BeatLogs(t', dSent + [BeatFrame], aSent)
  {
    var n := t.answererWrote;
    assert Beats(n + 1) == Beats(n) + [BeatFrame];
    hide Beats, BeatsAndAcks;
  }

  lemma OpenerReads(t: Traffic, c: Channel, dSent: seq<Frame>, aSent: seq<Frame>)
    requires Consistent(t) && BeatInFlight(t, c) && BeatLogs(t, dSent, aSent) && c.back != []
    ensures var t' := t.(openerRead := t.openerRead + 1);
            c.back[0] == BeatFrame && Consistent(t')
            && BeatInFlight(t', c.(back := c.back[1..])) && BeatLogs(t', dSent, aSent)
  {
  }

  lemma AnswererReads(t: Traffic, c: Channel, dSent: seq<Frame>, aSent: seq<Frame>)
    requires Consistent(t) && BeatInFlight(t, c) && BeatLogs(t, dSent, aSent) && c.fwd != []
    ensures var t' := t.(answererRead := t.answererRead + 1);
            c.fwd[0] == NthOfOpener(t.answererRead) && Consistent(t')
            && BeatInFlight(t', c.(fwd := c.fwd[1..])) && BeatLogs(t', dSent, aSent)
  {
  }

  lemma OpenerStepKeepsShapes(s: State)
    requires Inv(s) && Enabled(s, BeatStep(Acceptor))
    ensures Shapes(Apply(s, BeatStep(Acceptor)))
  {
    hide HandshakeInFlight, Consistent, BeatLogs, BeatInFlight;
    OpenerHeartbeatFrame(s);
  }

  lemma AnswererStepKeepsShapes(s: State)
    requires Inv(s) && Enabled(s, BeatStep(Dialler))
    ensures Shapes(Apply(s, BeatStep(Dialler)))
  {
    hide HandshakeInFlight, Consistent, BeatLogs, BeatInFlight;
    AnswererHeartbeatFrame(s);
  }

  /** What the opener finds when it reads is a beat. */
  lemma OpenerHeartbeatFrame(s: State)
    requires Inv(s) && s.fromAcceptor.channels != []
    ensures var c := s.fromAcceptor.channels[0]; c.back != [] ==> c.back[0] == BeatFrame
  {
    hide HandshakeInFlight, Shapes, BeatLogs;
  }

  /** What the answering side finds is a beat when it waits for one, and an
      acknowledgement when it waits for that. */
  lemma AnswererHeartbeatFrame(s: State)
    requires Inv(s) && s.fromAcceptor.channels != []
    ensures var c := s.fromAcceptor.channels[0];
            && (s.dialler.stage.AnswerRead? && c.fwd != [] ==> c.fwd[0] == BeatFrame)
            && (s.dialler.stage.AnswerAck? && c.fwd != [] ==> c.fwd[0] == AckFrame)
  {
    hide HandshakeInFlight, Shapes, BeatLogs;
  }

  lemma OpenerStepKeepsContents(s: State)
    requires Inv(s) && Enabled(s, BeatStep(Acceptor))
    ensures var s' := Apply(s, BeatStep(Acceptor)); Contents(s') && !s'.confused
  {
    hide LineShape, BeatInFlight, BeatLogs, Consistent;
    var t, c := TrafficOf(s), s.fromAcceptor.channels[0];
    OpenerHeartbeatFrame(s);
    var s' := Apply(s, BeatStep(Acceptor));
    if s.acceptor.stage.BeatRead? {
      OpenerReads(t, c, s.dialler.sent, s.acceptor.sent);
      assert s'.fromAcceptor.channels[0] == c.(back := c.back[1..]);
      assert TrafficOf(s') == t.(openerRead := t.openerRead + 1);
    } else {
      OpenerWrites(t, c, s.dialler.sent, s.acceptor.sent);
      assert NthOfOpener(t.openerWrote) == if s.acceptor.stage.BeatWrite? then BeatFrame else AckFrame;
      assert s'.fromAcceptor.channels[0] == c.(fwd := c.fwd + [NthOfOpener(t.openerWrote)]);
      assert TrafficOf(s') == t.(openerWrote := t.openerWrote + 1);
    }
  }

  lemma AnswererStepKeepsContents(s: State)
    requires Inv(s) && Enabled(s, BeatStep(Dialler))
    ensures var s' := Apply(s, BeatStep(Dialler)); Contents(s') && !s'.confused
  {
    hide LineShape, BeatInFlight, BeatLogs, Consistent;
    var t, c := TrafficOf(s), s.fromAcceptor.channels[0];
    AnswererHeartbeatFrame(s);
    var s' := Apply(s, BeatStep(Dialler));
    if s.dialler.stage.AnswerWrite? {
      AnswererWrites(t, c, s.dialler.sent, s.acceptor.sent);
      assert s'.fromAcceptor.channels[0] == c.(back := c.back + [BeatFrame]);
      assert TrafficOf(s') == t.(answererWrote := t.answererWrote + 1);
    } else {
      AnswererReads(t, c, s.dialler.sent, s.acceptor.sent);
      assert s'.fromAcceptor.channels[0] == c.(fwd := c.fwd[1..]);
      assert TrafficOf(s') == t.(answererRead := t.answererRead + 1);
    }
  }

  lemma StepKeepsInv(s: State, e: Event)
    requires Inv(s) && Enabled(s, e)
    ensures Inv(Apply(s, e))
  {
    hide Inv, Enabled, Apply;
    match e
    case OpenSession => DialStepsKeepInv(s, e);
    case WriteHandshake => DialStepsKeepInv(s, e);
    case ReadHandshakeReply => ReadReplyKeepsInv(s, e);
    case AcceptSession => AdmitStepsKeepInv(s, e);
    case ReadHandshake => AdmitStepsKeepInv(s, e);
    case ReplyHandshake(_) => AdmitStepsKeepInv(s, e);
    case StartServing(_) => StartServingKeepsInv(s, e);
    case TakeBeatStream(x) => TakeBeatStreamKeepsInv(s, x);
    case BeatStep(x) => BeatStepKeepsInv(s, x);
    case QueueTask(_) => QueueStepsKeepInv(s, e);
    case SpawnTask(_) => QueueStepsKeepInv(s, e);
    case OpenTaskStream(x) => OpenTaskStreamKeepsInv(s, x);
    case WriteCommand(x, i) => WriteCommandKeepsInv(s, x, i);
    case AcceptCommand(x) => AcceptCommandKeepsInv(s, x);
    case ReadCommand(x, i) => ReadCommandKeepsInv(s, x, i);
    case Stop(_) => StopKeepsInv(s, e);
  }

  lemma BeatStepKeepsInv(s: State, x: Side)
    requires Inv(s) && Enabled(s, BeatStep(x))
    ensures Inv(Apply(s, BeatStep(x)))
  {
    hide Shapes, Contents, Apply, Enabled;
    if x.Dialler? {
      AnswererStepKeepsShapes(s);
      AnswererStepKeepsContents(s);
    } else {
      OpenerStepKeepsShapes(s);
      OpenerStepKeepsContents(s);
    }
  }

  lemma {:induction false} RunKeepsInv(s: State, es: seq<Event>, t: State)
    requires Inv(s) && Exec(s, es) == Some(t)
    ensures Inv(t)
    decreases |es|
  {
    hide Inv, Enabled, Apply;
    if es != [] {
      StepKeepsInv(s, es[0]);
      RunKeepsInv(Apply(s, es[0]), es[1..], t);
    }
  }

  // ----- what every run shows ---------------------------------------------------------

  ghost predicate Reachable(s: State) {
    exists es :: Exec(Initial, es) == Some(s)
  }

  lemma ReachableInv(s: State)
    requires Reachable(s)
    ensures Inv(s)
  {
    var es :| Exec(Initial, es) == Some(s);
    InvInitial();
    RunKeepsInv(Initial, es, s);
  }

  function FirstPurpose(x: Side): Purpose {
    if x.Dialler? then ForHandshake else ForHeartbeat
  }

  /** In every reachable state each stream was accepted for what it was opened
      for: the dialler's first by the handshake alone, the acceptor's first by
      the first heartbeat alone, every later one as a command. A side opens a
      command stream only after its own first heartbeat, and no frame was ever
      read as something it was not written as. */
  lemma StreamsAreClassified(s: State, x: Side, i: nat)
    requires Reachable(s) && i < |LineOf(s, x).channels|
    ensures var l := LineOf(s, x);
            && l.channels[i].why == (if i == 0 then FirstPurpose(x) else ForCommand)
            && (i < |l.uses| ==> l.uses[i] == l.channels[i].why)
            && (l.channels[i].why.ForCommand? ==> Get(s, x).rounds > 0)
            && !s.confused
  {
    ReachableInv(s);
    hide Contents;
  }

  /** The two handshake halves agree: the dialler completes only if the acceptor
      did, and their roles are then opposite. */
  lemma RolesAreOpposite(s: State)
    requires Reachable(s) && s.dialler.asClient.Some?
    ensures s.dialler.asClient == Some(false) && s.acceptor.asClient == Some(true)
  {
    ReachableInv(s);
  }

  /** Lock-step over any number of rounds: the opener has written a prefix of
      beat, ack, beat, ack, ..., the other side a prefix of beats; what one side
      wrote is what the other has read followed by what is in flight; at most
      two frames are in flight; the round counts differ by at most one. */
  lemma HeartbeatsAreInLockStep(s: State)
    requires Reachable(s)
    ensures var t := TrafficOf(s);
            && s.acceptor.sent == BeatsAndAcks(t.openerWrote)
            && s.dialler.sent == Beats(t.answererWrote)
            && (if s.fromAcceptor.channels == [] then t.openerWrote == t.answererRead == 0
                else
                  var c := s.fromAcceptor.channels[0];
                  && t.openerWrote == t.answererRead + |c.fwd|
                  && t.answererWrote == t.openerRead + |c.back|
                  && |c.fwd| + |c.back| <= 2)
            && s.dialler.rounds <= s.acceptor.rounds <= s.dialler.rounds + 1
  {
    ReachableInv(s);
    hide HandshakeInFlight, LineShape;
  }

  /** The next step of a side's own program. */
  function NextStep(s: State, x: Side): Event {
    match Get(s, x).stage
    case DialOpen => OpenSession
    case DialWrite => WriteHandshake
    case DialRead => ReadHandshakeReply
    case AcceptStream => AcceptSession
    case AcceptRead => ReadHandshake
    case AcceptReply => ReplyHandshake(true)
    case Registered => StartServing(x)
    case FirstStream => TakeBeatStream(x)
    case _ => BeatStep(x)
  }

  /** From the first step of the handshake through every heartbeat round, as
      long as neither side has stopped one of them can move: they never both
      wait for the other. */
  lemma NeverBothWaiting(s: State)
    requires Reachable(s) && !s.dialler.stopped && !s.acceptor.stopped
    ensures Enabled(s, NextStep(s, Dialler)) || Enabled(s, NextStep(s, Acceptor))
  {
    hide BeatInFlight, BeatLogs, BeatsAndAcks, Beats;
    ReachableInv(s);
    if Answering(s.dialler.stage) && Opening(s.acceptor.stage) {
      SomeoneCanBeat(s);
    } else {
      SomeoneCanGetThere(s);
    }
  }

  lemma SomeoneCanGetThere(s: State)
    requires Inv(s) && !(Answering(s.dialler.stage) && Opening(s.acceptor.stage))
             && !s.dialler.stopped && !s.acceptor.stopped
    ensures Enabled(s, NextStep(s, Dialler)) || Enabled(s, NextStep(s, Acceptor))
  {
    hide BeatInFlight, BeatLogs, BeatsAndAcks, Beats, TrafficOf;
  }

  lemma SomeoneCanBeat(s: State)
    requires Inv(s) && Answering(s.dialler.stage) && Opening(s.acceptor.stage)
             && !s.dialler.stopped && !s.acceptor.stopped
    ensures Enabled(s, BeatStep(Dialler)) || Enabled(s, BeatStep(Acceptor))
  {
    hide HandshakeInFlight, LineShape, BeatLogs;
  }

  // ----- every task and command is accounted for ---------------------------------------

  function One(b: bool): nat {
    if b then 1 else 0
  }

  /** How often an event occurs in a run. */
  function Count(es: seq<Event>, e: Event): nat {
    if es == [] then 0 else One(es[0] == e) + Count(es[1..], e)
  }

  /** How many come behind the first. */
  function Behind<T>(q: seq<T>): nat {
    if q == [] then 0 else |q| - 1
  }

  /** A step changes these four counts by its own event and no other. */
  ghost predicate Tallies(s: State, e: Event, x: Side)
    requires Enabled(s, e)
  {
    var t := Apply(s, e);
    && Get(t, x).queued + One(e == SpawnTask(x)) == Get(s, x).queued + One(e == QueueTask(x))
    && Get(t, x).spawned + One(e == OpenTaskStream(x)) == Get(s, x).spawned + One(e == SpawnTask(x))
    && Behind(LineOf(t, x).channels) == Behind(LineOf(s, x).channels) + One(e == OpenTaskStream(x))
    && Behind(LineOf(t, x).uses) == Behind(LineOf(s, x).uses) + One(e == AcceptCommand(Other(x)))
  }

  lemma HandshakeTallies(s: State, e: Event, x: Side)
    requires Inv(s) && Enabled(s, e)
    requires e.OpenSession? || e.WriteHandshake? || e.ReadHandshakeReply? || e.AcceptSession? || e.ReadHandshake?
             || e.ReplyHandshake? || e.StartServing? || e.Stop?
    ensures Tallies(s, e, x)
  {
    hide Contents, LineShape;
  }

  lemma BeatStreamTallies(s: State, e: Event, x: Side)
    requires Inv(s) && Enabled(s, e) && e.TakeBeatStream?
    ensures Tallies(s, e, x)
  {
    hide Contents, LineShape;
  }

  lemma BeatTallies(s: State, e: Event, x: Side)
    requires Inv(s) && Enabled(s, e) && e.BeatStep?
    ensures Tallies(s, e, x)
  {
    hide Contents, LineShape, Progressed;
  }

  lemma TaskTallies(s: State, e: Event, x: Side)
    requires Inv(s) && Enabled(s, e) && (e.QueueTask? || e.SpawnTask? || e.OpenTaskStream?)
    ensures Tallies(s, e, x)
  {
    hide Contents, LineShape;
  }

  lemma CommandTallies(s: State, e: Event, x: Side)
    requires Inv(s) && Enabled(s, e) && (e.WriteCommand? || e.AcceptCommand? || e.ReadCommand?)
    ensures Tallies(s, e, x)
  {
    hide Contents, LineShape;
  }

  lemma StepTallies(s: State, e: Event, x: Side)
    requires Inv(s) && Enabled(s, e)
    ensures Tallies(s, e, x)
  {
    hide Inv, Enabled, Tallies;
    if e.TakeBeatStream? {
      BeatStreamTallies(s, e, x);
    } else if e.BeatStep? {
      BeatTallies(s, e, x);
    } else if e.QueueTask? || e.SpawnTask? || e.OpenTaskStream? {
      TaskTallies(s, e, x);
    } else if e.WriteCommand? || e.AcceptCommand? || e.ReadCommand? {
      CommandTallies(s, e, x);
    } else {
      HandshakeTallies(s, e, x);
    }
  }

  lemma {:induction false} RunTallies(s: State, es: seq<Event>, t: State, x: Side)
    requires Inv(s) && Exec(s, es) == Some(t)
    ensures Get(t, x).queued + Count(es, SpawnTask(x)) == Get(s, x).queued + Count(es, QueueTask(x))
    ensures Get(t, x).spawned + Count(es, OpenTaskStream(x)) == Get(s, x).spawned + Count(es, SpawnTask(x))
    ensures Behind(LineOf(t, x).channels) == Behind(LineOf(s, x).channels) + Count(es, OpenTaskStream(x))
    ensures Behind(LineOf(t, x).uses) == Behind(LineOf(s, x).uses) + Count(es, AcceptCommand(Other(x)))
    decreases |es|
  {
    hide Inv, Enabled, Apply, Get, LineOf, Behind;
    if es != [] {
      StepTallies(s, es[0], x);
      StepKeepsInv(s, es[0]);
      RunTallies(Apply(s, es[0]), es[1..], t, x);
    }
  }

  /** In every run each task queued is still queued, spawned, or has had its own
      stream opened, and each stream accepted behind the first was accepted for a
      command. */
  lemma TasksAreAccounted(es: seq<Event>, s: State, x: Side)
    requires Exec(Initial, es) == Some(s)
    ensures Count(es, QueueTask(x)) == Get(s, x).queued + Get(s, x).spawned + Behind(LineOf(s, x).channels)
    ensures Count(es, SpawnTask(x)) == Get(s, x).spawned + Behind(LineOf(s, x).channels)
    ensures Count(es, OpenTaskStream(x)) == Behind(LineOf(s, x).channels)
    ensures Count(es, AcceptCommand(Other(x))) == Behind(LineOf(s, x).uses)
  {
    InvInitial();
    RunTallies(Initial, es, s, x);
  }

  /** The commands written on a stream and those not yet read, none if there is no
      such stream. */
  function Written(s: State, x: Side, i: nat): nat {
    if i < |LineOf(s, x).channels| then One(LineOf(s, x).channels[i].commanded) else 0
  }

  function Unread(s: State, x: Side, i: nat): nat {
    if i < |LineOf(s, x).channels| then |LineOf(s, x).channels[i].fwd| else 0
  }

  ghost predicate Carries(s: State, e: Event, x: Side, i: nat)
    requires Enabled(s, e)
  {
    var t := Apply(s, e);
    && Written(t, x, i) == Written(s, x, i) + One(e == WriteCommand(x, i))
    && Unread(t, x, i) + One(e == ReadCommand(Other(x), i)) == Unread(s, x, i) + One(e == WriteCommand(x, i))
  }

  lemma StepCarries(s: State, e: Event, x: Side, i: nat)
    requires Inv(s) && Enabled(s, e) && i > 0
    ensures Carries(s, e, x, i)
  {
    hide Inv, Enabled, Carries;
    if e.TakeBeatStream? {
      BeatStreamCarries(s, e, x, i);
    } else if e.BeatStep? {
      BeatCarries(s, e, x, i);
    } else if e.QueueTask? || e.SpawnTask? || e.OpenTaskStream? {
      TaskCarries(s, e, x, i);
    } else if e.WriteCommand? || e.AcceptCommand? || e.ReadCommand? {
      CommandCarries(s, e, x, i);
    } else {
      HandshakeCarries(s, e, x, i);
    }
  }

  lemma HandshakeCarries(s: State, e: Event, x: Side, i: nat)
    requires Inv(s) && Enabled(s, e) && i > 0
    requires e.OpenSession? || e.WriteHandshake? || e.ReadHandshakeReply? || e.AcceptSession? || e.ReadHandshake?
             || e.ReplyHandshake? || e.StartServing? || e.Stop?
    ensures Carries(s, e, x, i)
  {
    hide Contents, LineShape;
  }

  lemma BeatStreamCarries(s: State, e: Event, x: Side, i: nat)
    requires Inv(s) && Enabled(s, e) && i > 0 && e.TakeBeatStream?
    ensures Carries(s, e, x, i)
  {
    hide Contents, LineShape;
  }

  lemma BeatCarries(s: State, e: Event, x: Side, i: nat)
    requires Inv(s) && Enabled(s, e) && i > 0 && e.BeatStep?
    ensures Carries(s, e, x, i)
  {
    hide Contents, LineShape, Progressed;
  }

  lemma TaskCarries(s: State, e: Event, x: Side, i: nat)
    requires Inv(s) && Enabled(s, e) && i > 0 && (e.QueueTask? || e.SpawnTask? || e.OpenTaskStream?)
    ensures Carries(s, e, x, i)
  {
    hide Contents, LineShape;
  }

  lemma CommandCarries(s: State, e: Event, x: Side, i: nat)
    requires Inv(s) && Enabled(s, e) && i > 0 && (e.WriteCommand? || e.AcceptCommand? || e.ReadCommand?)
    ensures Carries(s, e, x, i)
  {
    hide Contents, LineShape;
  }

  lemma {:induction false} RunCarries(s: State, es: seq<Event>, t: State, x: Side, i: nat)
    requires Inv(s) && Exec(s, es) == Some(t) && i > 0
    ensures Written(t, x, i) == Written(s, x, i) + Count(es, WriteCommand(x, i))
    ensures Unread(t, x, i) + Count(es, ReadCommand(Other(x), i)) == Unread(s, x, i) + Count(es, WriteCommand(x, i))
    decreases |es|
  {
    hide Inv, Enabled, Apply, Written, Unread;
    if es != [] {
      StepCarries(s, es[0], x, i);
      StepKeepsInv(s, es[0]);
      RunCarries(Apply(s, es[0]), es[1..], t, x, i);
    }
  }

  /** In every run each command stream has its command written at most once, and
      read by the other side exactly as often unless it is still on its way. */
  lemma CommandsAreAccounted(es: seq<Event>, s: State, x: Side, i: nat)
    requires Exec(Initial, es) == Some(s) && 0 < i < |LineOf(s, x).channels|
    ensures Count(es, WriteCommand(x, i)) == One(LineOf(s, x).channels[i].commanded)
    ensures Count(es, ReadCommand(Other(x), i)) + |LineOf(s, x).channels[i].fwd| == Count(es, WriteCommand(x, i))
  {
    InvInitial();
    RunCarries(Initial, es, s, x, i);
  }

  // ----- runs in which everything happens ------------------------------------------------

  lemma {:induction false} Extend(s: State, es: seq<Event>, e: Event)
    requires Exec(s, es).Some? && Enabled(Exec(s, es).value, e)
    ensures Exec(s, es + [e]) == Some(Apply(Exec(s, es).value, e))
    decreases |es|
  {
    hide Enabled, Apply;
    if es == [] {
      assert es + [e] == [e];
      assert [e][1..] == [];
    } else {
      Extend(Apply(s, es[0]), es[1..], e);
      assert (es + [e])[1..] == es[1..] + [e];
    }
  }

  lemma ReachStep(s: State, e: Event)
    requires Reachable(s) && Enabled(s, e)
    ensures Reachable(Apply(s, e))
  {
    var es :| Exec(Initial, es) == Some(s);
    hide Apply, Enabled;
    Extend(Initial, es, e);
  }

  function Party(g: Stage, opener: bool, rounds: nat): Peer {
    Peer(g, false, Some(opener), Some(StreamId(Dialler, 0)), Some(StreamId(Acceptor, 0)), rounds,
         if opener then BeatsAndAcks(2 * rounds) else Beats(rounds), 0, 0)
  }

  const SESSION := Channel(ForHandshake, [], [], false)
  const BEAT := Channel(ForHeartbeat, [], [], false)

  /** Between two rounds, with the given command streams behind the first ones. */
  function Idle(n: nat, fromDialler: seq<Channel>, fromAcceptor: seq<Channel>): State {
    State(Party(AnswerRead, false, n), Party(BeatWrite, true, n),
          Line([SESSION] + fromDialler, [ForHandshake] + Commands(|fromDialler|)),
          Line([BEAT] + fromAcceptor, [ForHeartbeat] + Commands(|fromAcceptor|)), false)
  }

  function Commands(n: nat): (r: seq<Purpose>)
    ensures |r| == n
  {
    seq(n, _ => ForCommand)
  }

  /** A command stream whose command has been read. */
  const ANSWERED := Channel(ForCommand, [], [], true)

  function Answered(n: nat): (r: seq<Channel>)
    ensures |r| == n
  {
    seq(n, _ => ANSWERED)
  }

  lemma Pushed(f: Frame)
    ensures [] + [f] == [f] && [f][1..] == []
  {
  }

  lemma Dials() returns (s: State)
    ensures Reachable(s) && s.dialler == NewPeer(DialRead).(session := Some(StreamId(Dialler, 0)))
    ensures s.acceptor == NewPeer(AcceptStream) && s.fromAcceptor == Line([], []) && !s.confused
    ensures s.fromDialler == Line([SESSION.(fwd := [HandshakeFrame])], [])
  {
    assert Exec(Initial, []) == Some(Initial);
    hide Reachable;
    Pushed(HandshakeFrame);
    ReachStep(Initial, OpenSession);
    var s1 := Apply(Initial, OpenSession);
    assert s1.fromDialler.channels == [SESSION];
    ReachStep(s1, WriteHandshake);
    s := Apply(s1, WriteHandshake);
    assert s.fromDialler.channels == [SESSION.(fwd := [HandshakeFrame])];
  }

  lemma Admits() returns (s: State)
    ensures Reachable(s) && s.dialler == NewPeer(DialRead).(session := Some(StreamId(Dialler, 0)))
    ensures s.acceptor == NewPeer(AcceptReply).(session := Some(StreamId(Dialler, 0)))
    ensures s.fromDialler == Line([SESSION], [ForHandshake]) && s.fromAcceptor == Line([], []) && !s.confused
  {
    hide Reachable;
    Pushed(HandshakeFrame);
    var s2 := Dials();
    ReachStep(s2, AcceptSession);
    var s3 := Apply(s2, AcceptSession);
    assert s3.fromDialler.uses == [ForHandshake];
    ReachStep(s3, ReadHandshake);
    s := Apply(s3, ReadHandshake);
    assert s.fromDialler.channels == [SESSION];
  }

  lemma Handshakes() returns (s: State)
    ensures Reachable(s)
    ensures s.dialler == NewPeer(Registered).(asClient := Some(false), session := Some(StreamId(Dialler, 0)))
    ensures s.acceptor == NewPeer(Registered).(asClient := Some(true), session := Some(StreamId(Dialler, 0)))
    ensures s.fromDialler == Line([SESSION], [ForHandshake]) && s.fromAcceptor == Line([], []) && !s.confused
  {
    hide Reachable;
    Pushed(HandshakeFrame);
    var s4 := Admits();
    ReachStep(s4, ReplyHandshake(true));
    var s5 := Apply(s4, ReplyHandshake(true));
    assert s5.fromDialler.channels == [SESSION.(back := [HandshakeFrame])];
    ReachStep(s5, ReadHandshakeReply);
    s := Apply(s5, ReadHandshakeReply);
    assert s.fromDialler.channels == [SESSION];
  }

  lemma Begins()
    ensures Reachable(Idle(0, [], []))
  {
    hide Reachable;
    var s0 := Handshakes();
    ReachStep(s0, StartServing(Dialler));
    var s1 := Apply(s0, StartServing(Dialler));
    ReachStep(s1, StartServing(Acceptor));
    var s2 := Apply(s1, StartServing(Acceptor));
    ReachStep(s2, TakeBeatStream(Acceptor));
    var s3 := Apply(s2, TakeBeatStream(Acceptor));
    ReachStep(s3, TakeBeatStream(Dialler));
    var s4 := Apply(s3, TakeBeatStream(Dialler));
    assert Commands(0) == [] && BeatsAndAcks(0) == [] && Beats(0) == [];
    assert s4 == Idle(0, [], []);
  }

  /** The state in the middle of a round: both beats have been read. */
  lemma HalfRound(n: nat) returns (s: State)
    requires Reachable(Idle(n, [], []))
    ensures Reachable(s)
    ensures s.dialler == Party(AnswerAck, false, n).(sent := Beats(n + 1))
    ensures s.acceptor == Party(BeatAck, true, n).(sent := BeatsAndAcks(2 * n) + [BeatFrame])
    ensures s.fromDialler == Line([SESSION], [ForHandshake]) && s.fromAcceptor == Line([BEAT], [ForHeartbeat])
    ensures !s.confused
  {
    hide Reachable, Beats, BeatsAndAcks;
    var s0 := Idle(n, [], []);
    assert s0.fromAcceptor == Line([BEAT], [ForHeartbeat]) && s0.fromDialler == Line([SESSION], [ForHandshake]);
    Pushed(BeatFrame);
    Pushed(AckFrame);
    ReachStep(s0, BeatStep(Acceptor));
    var s1 := Apply(s0, BeatStep(Acceptor));
    assert s1.fromAcceptor.channels == [BEAT.(fwd := [BeatFrame])];
    ReachStep(s1, BeatStep(Dialler));
    var s2 := Apply(s1, BeatStep(Dialler));
    assert s2.fromAcceptor.channels == [BEAT];
    ReachStep(s2, BeatStep(Dialler));
    var s3 := Apply(s2, BeatStep(Dialler));
    assert s3.fromAcceptor.channels == [BEAT.(back := [BeatFrame])];
    ReachStep(s3, BeatStep(Acceptor));
    s := Apply(s3, BeatStep(Acceptor));
    assert s.fromAcceptor.channels == [BEAT];
    assert Beats(n + 1) == Beats(n) + [BeatFrame];
  }

  lemma OneRound(n: nat)
    requires Reachable(Idle(n, [], []))
    ensures Reachable(Idle(n + 1, [], []))
  {
    hide Reachable, Beats, BeatsAndAcks;
    var s0 := HalfRound(n);
    Pushed(BeatFrame);
    Pushed(AckFrame);
    ReachStep(s0, BeatStep(Acceptor));
    var s1 := Apply(s0, BeatStep(Acceptor));
    assert s1.fromAcceptor.channels == [BEAT.(fwd := [AckFrame])];
    ReachStep(s1, BeatStep(Dialler));
    var s2 := Apply(s1, BeatStep(Dialler));
    assert s2.fromAcceptor.channels == [BEAT];
    assert BeatsAndAcks(2 * (n + 1)) == BeatsAndAcks(2 * n) + [BeatFrame] + [AckFrame];
    assert s2 == Idle(n + 1, [], []);
  }

  lemma {:induction false} AnyNumberOfRounds(n: nat)
    ensures Reachable(Idle(n, [], []))
  {
    hide Reachable, Idle;
    if n == 0 {
      Begins();
    } else {
      AnyNumberOfRounds(n - 1);
      OneRound(n - 1);
    }
  }

  /** From any state in which both run and every stream of `x` has been accepted, a
      task of `x` has its own stream opened, with its command on it. */
  lemma SendsCommand(s: State, x: Side) returns (t: State)
    requires Reachable(s) && Running(Get(s, x)) && Handshaken(Get(s, x))
    ensures Reachable(t) && Get(t, x) == Get(s, x) && Get(t, Other(x)) == Get(s, Other(x))
    ensures LineOf(t, x).channels == LineOf(s, x).channels + [Channel(ForCommand, [CommandFrame], [], true)]
    ensures LineOf(t, x).uses == LineOf(s, x).uses && LineOf(t, Other(x)) == LineOf(s, Other(x))
    ensures t.confused == s.confused
  {
    hide Reachable;
    ReachStep(s, QueueTask(x));
    var s1 := Apply(s, QueueTask(x));
    ReachStep(s1, SpawnTask(x));
    var s2 := Apply(s1, SpawnTask(x));
    ReachStep(s2, OpenTaskStream(x));
    var s3 := Apply(s2, OpenTaskStream(x));
    var channels := LineOf(s, x).channels;
    Pushed(CommandFrame);
    assert LineOf(s3, x).channels == channels + [Channel(ForCommand, [], [], false)];
    ReachStep(s3, WriteCommand(x, |channels|));
    t := Apply(s3, WriteCommand(x, |channels|));
    assert LineOf(t, x).channels[..|channels|] == channels;
  }

  /** The other side accepts it and reads it. */
  lemma ReadsCommand(s: State, x: Side, before: seq<Channel>) returns (t: State)
    requires Reachable(s) && Running(Get(s, Other(x))) && !s.confused
    requires LineOf(s, x).channels == before + [Channel(ForCommand, [CommandFrame], [], true)]
    requires |LineOf(s, x).uses| == |before|
    ensures Reachable(t) && Get(t, x) == Get(s, x) && Get(t, Other(x)) == Get(s, Other(x))
    ensures LineOf(t, x).channels == before + [ANSWERED] && LineOf(t, x).uses == LineOf(s, x).uses + [ForCommand]
    ensures LineOf(t, Other(x)) == LineOf(s, Other(x)) && !t.confused
  {
    hide Reachable;
    Pushed(CommandFrame);
    ReachStep(s, AcceptCommand(Other(x)));
    var s1 := Apply(s, AcceptCommand(Other(x)));
    assert LineOf(s1, x).channels[|before|] == Channel(ForCommand, [CommandFrame], [], true);
    ReachStep(s1, ReadCommand(Other(x), |before|));
    t := Apply(s1, ReadCommand(Other(x), |before|));
    assert LineOf(t, x).channels[|before|] == ANSWERED;
    assert LineOf(t, x).channels[..|before|] == before;
  }

  /** A running side gets one more command across. */
  lemma OneCommand(n: nat, k: nat, m: nat, x: Side)
    requires n > 0 && Reachable(Idle(n, Answered(k), Answered(m)))
    ensures Reachable(if x.Dialler? then Idle(n, Answered(k + 1), Answered(m))
                      else Idle(n, Answered(k), Answered(m + 1)))
  {
    hide Reachable, Beats, BeatsAndAcks;
    var s0 := Idle(n, Answered(k), Answered(m));
    var i: nat := if x.Dialler? then k + 1 else m + 1;
    var s1 := SendsCommand(s0, x);
    var s2 := ReadsCommand(s1, x, LineOf(s0, x).channels);
    assert Answered(i) == Answered(i - 1) + [ANSWERED] && Commands(i) == Commands(i - 1) + [ForCommand];
    var first := if x.Dialler? then [SESSION] else [BEAT];
    assert first + Answered(i - 1) + [ANSWERED] == first + (Answered(i - 1) + [ANSWERED]);
    var use := [FirstPurpose(x)];
    assert use + Commands(i - 1) + [ForCommand] == use + (Commands(i - 1) + [ForCommand]);
  }

  /** After any positive number of rounds any number of commands of either side can
      have been queued, started, written, accepted and read by the other. */
  lemma {:induction false} CommandsFlow(n: nat, k: nat, m: nat)
    requires n > 0
    ensures Reachable(Idle(n, Answered(k), Answered(m)))
    decreases k + m
  {
    hide Reachable, Idle;
    if k > 0 {
      CommandsFlow(n, k - 1, m);
      OneCommand(n, k - 1, m, Dialler);
    } else if m > 0 {
      CommandsFlow(n, k, m - 1);
      OneCommand(n, k, m - 1, Acceptor);
    } else {
      AnyNumberOfRounds(n);
      assert Answered(0) == [];
    }
  }

  /** A refused handshake ends both sides before either has a role. */
  lemma RefusalEndsBoth() returns (s: State)
    ensures Reachable(s) && s.dialler.stopped && s.acceptor.stopped
    ensures !Handshaken(s.dialler) && !Handshaken(s.acceptor)
  {
    hide Reachable;
    var s4 := Admits();
    ReachStep(s4, ReplyHandshake(false));
    var s5 := Apply(s4, ReplyHandshake(false));
    assert s5.fromDialler.channels[0].back == [ErrorFrame];
    ReachStep(s5, ReadHandshakeReply);
    s := Apply(s5, ReadHandshakeReply);
  }

  lemma StoppedStep(s: State, e: Event, x: Side)
    requires Enabled(s, e) && Get(s, x).stopped
    ensures var p, q := Get(s, x), Get(Apply(s, e), x);
            q.stopped && q.sent == p.sent && q.rounds == p.rounds && q.stage == p.stage && q.asClient == p.asClient
  {
  }

  lemma {:induction false} StoppedRun(s: State, es: seq<Event>, t: State, x: Side)
    requires Get(s, x).stopped && Exec(s, es) == Some(t)
    ensures var p, q := Get(s, x), Get(t, x);
            q.sent == p.sent && q.rounds == p.rounds && q.stage == p.stage && q.asClient == p.asClient
    decreases |es|
  {
    hide Enabled, Apply;
    if es != [] {
      StoppedStep(s, es[0], x);
      StoppedRun(Apply(s, es[0]), es[1..], t, x);
    }
  }

  /** Either side may stop at any moment, and then neither beats nor finishes a
      handshake any more, whatever the other side and its own tasks still do. */
  lemma StopIsFinal(s: State, x: Side)
    requires !Get(s, x).stopped
    ensures Enabled(s, Stop(x))
    ensures forall es: seq<Event> | Exec(Apply(s, Stop(x)), es).Some? ::
              var p := Get(Exec(Apply(s, Stop(x)), es).value, x);
              p.sent == Get(s, x).sent && p.rounds == Get(s, x).rounds && p.asClient == Get(s, x).asClient
  {
    var m := Apply(s, Stop(x));
    forall es: seq<Event> | Exec(m, es).Some?
      ensures var p := Get(Exec(m, es).value, x);
              p.sent == Get(s, x).sent && p.rounds == Get(s, x).rounds && p.asClient == Get(s, x).asClient
    {
      StoppedRun(m, es, Exec(m, es).value, x);
    }
  }
}
