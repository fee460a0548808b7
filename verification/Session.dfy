/** Two-phase command sessions: the caller and its multi-stage task on one side
    of a stream, the handler of a file read, a file write or a forward on the
    other. Frames and body bytes share the stream; only the two programs know
    which comes next. */
module Session {
  import opened Wire

  datatype Kind = ReadFile | WriteFile | Forward

  datatype Type = CommandType | AckType | MetadataType | AddressType

  /** `RefusingAck` is an acknowledgement with an error code but without the
      error bit, as the write handler sends last. */
  datatype Item = Typed(ty: Type) | ErrorFrame | RefusingAck | Raw(b: byte)

  datatype Side = Client | Server

  function Other(x: Side): Side {
    if x.Client? then Server else Client
  }

  /** What the first phase answers with. */
  function OfferType(k: Kind): Type {
    match k
    case ReadFile => MetadataType
    case WriteFile => AckType
    case Forward => AddressType
  }

  predicate Sends(k: Kind, x: Side) {
    k.Forward? || (k.ReadFile? && x.Server?) || (k.WriteFile? && x.Client?)
  }

  predicate Receives(k: Kind, x: Side) {
    Sends(k, Other(x))
  }

  datatype Stage =
    | WriteCommand | ReadAck | ReadOffer | AwaitAnswer | ReadOpenAck | ReadFinal   // client
    | ReadCommand | SendAck | SendOffer | ReadGo | OpenFile | SendFinal           // server
    | Body
    | Closed

  /** `log` is everything this party has put on the stream and `pos` how much of
      the other's log it has taken off; `ended` says its sending half is
      finished. `source` is the body it would send and `sent` how much of it is
      out; `got` is the body it has received. */
  datatype Party = Party(stage: Stage, log: seq<Item>, pos: nat, ended: bool,
                         source: seq<byte>, sent: nat, got: seq<byte>, sawEnd: bool)

  datatype Answer = Undecided | Yes | No | Dropped

  /** `offers` counts what was sent down the caller's one-shot channel. */
  datatype Caller = Caller(gone: bool, offers: nat, offered: bool, answer: Answer)

  datatype State = State(client: Party, server: Party, caller: Caller, confused: bool)

  function Initial(fromClient: seq<byte>, fromServer: seq<byte>): State {
    State(Party(WriteCommand, [], 0, false, fromClient, 0, [], false),
          Party(ReadCommand, [], 0, false, fromServer, 0, [], false),
          Caller(false, 0, false, Undecided), false)
  }

  function Get(s: State, x: Side): Party {
    if x.Client? then s.client else s.server
  }

  function Put(s: State, x: Side, p: Party): State {
    if x.Client? then s.(client := p) else s.(server := p)
  }

  // ----- reading and writing ----------------------------------------------------

  datatype Outcome = Wait | Good | Bad | Mismatch

  /** What `x` finds when it reads a frame of a given type. */
  function FrameAt(s: State, x: Side, ty: Type): Outcome {
    var p, q := Get(s, x), Get(s, Other(x));
    if p.pos < |q.log| then
      var item := q.log[p.pos];
      if item == Typed(ty) then Good
      else if item.ErrorFrame? || (item.RefusingAck? && ty.AckType?) then Bad
      else Mismatch
    else if q.ended then Bad
    else Wait
  }

  function Advance(p: Party, stage: Stage): Party {
    p.(pos := p.pos + 1, stage := stage)
  }

  /** Closing a party drops its stream, which finishes its sending half. */
  function Close(p: Party): Party {
    p.(stage := Closed, ended := true)
  }

  function Emit(p: Party, item: Item, stage: Stage): Party {
    p.(log := p.log + [item], stage := stage)
  }

  // ----- steps ----------------------------------------------------------------------

  /** `ServerStep(ok)` chooses whether the handler's own work succeeds. */
  datatype Event =
    | ClientStep
    | ServerStep(ok: bool)
    | BodySend(side: Side)
    | BodyStop(side: Side)
    | BodyTake(side: Side)
    | BodyEnd(side: Side)
    | BodyLeave(side: Side)
    | CopyFails
    | CallerLeaves
    | CallerAnswers(answer: Answer)
    | Abort(side: Side)

  /** The frame a stage waits for, if it waits for one. */
  function Awaited(k: Kind, g: Stage): Option<Type> {
    match g
    case ReadAck => Some(AckType)
    case ReadOffer => Some(OfferType(k))
    case ReadOpenAck => Some(AckType)
    case ReadFinal => Some(AckType)
    case ReadCommand => Some(CommandType)
    case ReadGo => Some(AckType)
    case _ => None
  }

  /** The stages of a side's program outside the body phase. */
  predicate InProgram(x: Side, g: Stage) {
    if x.Client? then g.WriteCommand? || g.ReadAck? || g.ReadOffer? || g.AwaitAnswer? || g.ReadOpenAck? || g.ReadFinal?
    else g.ReadCommand? || g.SendAck? || g.SendOffer? || g.ReadGo? || g.OpenFile? || g.SendFinal?
  }

  predicate Ready(k: Kind, s: State, x: Side) {
    var g := Get(s, x).stage;
    && InProgram(x, g)
    && (Awaited(k, g).Some? ==> !FrameAt(s, x, Awaited(k, g).value).Wait?)
    && (g.AwaitAnswer? ==> !s.caller.answer.Undecided?)
  }

  /** The body phase of a party is over. */
  predicate BodyOver(k: Kind, p: Party, x: Side) {
    (Sends(k, x) ==> p.ended) && (Receives(k, x) ==> p.sawEnd)
  }

  predicate Enabled(k: Kind, s: State, e: Event) {
    match e
    case ClientStep => Ready(k, s, Client)
    case ServerStep(_) => Ready(k, s, Server)
    case BodySend(x) =>
      var p := Get(s, x);
      p.stage.Body? && Sends(k, x) && !p.ended && p.sent < |p.source|
    case BodyStop(x) => Get(s, x).stage.Body? && Sends(k, x) && !Get(s, x).ended
    case BodyTake(x) =>
      Get(s, x).stage.Body? && Receives(k, x) && !Get(s, x).sawEnd && Get(s, x).pos < |Get(s, Other(x)).log|
    case BodyEnd(x) =>
      Get(s, x).stage.Body? && Receives(k, x) && !Get(s, x).sawEnd
      && Get(s, x).pos >= |Get(s, Other(x)).log| && Get(s, Other(x)).ended
    case BodyLeave(x) => Get(s, x).stage.Body? && BodyOver(k, Get(s, x), x)
    case CopyFails => k.WriteFile? && s.server.stage.Body?
    case CallerLeaves => !s.caller.gone && s.caller.offers == 0
    case CallerAnswers(a) => s.caller.offered && s.caller.answer.Undecided? && !a.Undecided?
    case Abort(x) => !Get(s, x).stage.Closed?
  }

  /** An error for the caller, if it is still there to hear it. */
  function Refuse(c: Caller): Caller {
    if c.gone then c else c.(offers := c.offers + 1)
  }

  predicate SameSources(s: State, t: State) {
    t.client.source == s.client.source && t.server.source == s.server.source
  }

  function ApplyClient(k: Kind, s: State): (t: State)
    requires Ready(k, s, Client)
    ensures SameSources(s, t)
  {
    var c := s.client;
    if c.stage.WriteCommand? then s.(client := Emit(c, Typed(CommandType), ReadAck))
    else if c.stage.AwaitAnswer? then s.(client := Answered(k, c, s.caller.answer))
    else
      var found := FrameAt(s, Client, Awaited(k, c.stage).value);
      if found.Mismatch? then s.(client := Close(c), confused := true)
      else if found.Bad? then
        s.(client := Close(c), caller := if c.stage.ReadAck? || c.stage.ReadOffer? then Refuse(s.caller) else s.caller)
      else if c.stage.ReadAck? then s.(client := Advance(c, ReadOffer))
      else if c.stage.ReadOffer? then
        if s.caller.gone then s.(client := Close(Advance(c, Closed)))
        else s.(client := Advance(c, AwaitAnswer), caller := s.caller.(offers := s.caller.offers + 1, offered := true))
      else if c.stage.ReadOpenAck? then s.(client := Advance(c, Body))
      else s.(client := Close(Advance(c, Closed)))
  }

  function Answered(k: Kind, c: Party, a: Answer): Party {
    match a
    case Yes => Emit(c, Typed(AckType), if k.ReadFile? then ReadOpenAck else Body)
    case No => Close(Emit(c, ErrorFrame, Closed))
    case _ => Close(c)
  }

  function ApplyServer(k: Kind, s: State, ok: bool): (t: State)
    requires Ready(k, s, Server)
    ensures SameSources(s, t)
  {
    var v := s.server;
    match v.stage
    case SendAck => s.(server := Emit(v, Typed(AckType), SendOffer))
    case SendOffer =>
      s.(server := if ok then Emit(v, Typed(OfferType(k)), ReadGo) else Close(Emit(v, ErrorFrame, Closed)))
    case OpenFile => s.(server := if ok then Emit(v, Typed(AckType), Body) else Close(Emit(v, ErrorFrame, Closed)))
    // A copy that failed is never acknowledged with success.
    case SendFinal => s.(server := Close(Emit(v, if ok && v.sawEnd then Typed(AckType) else RefusingAck, Closed)))
    case ReadCommand => Heard(k, s, CommandType, SendAck)
    case ReadGo => Heard(k, s, AckType, if k.ReadFile? then OpenFile else Body)
    case _ => s
  }

  function Heard(k: Kind, s: State, ty: Type, next: Stage): State {
    var found := FrameAt(s, Server, ty);
    if found.Good? then s.(server := Advance(s.server, next))
    else s.(server := Close(s.server), confused := s.confused || found.Mismatch?)
  }

  function Apply(k: Kind, s: State, e: Event): State
    requires Enabled(k, s, e)
  {
    match e
    case ClientStep => ApplyClient(k, s)
    case ServerStep(ok) => ApplyServer(k, s, ok)
    case BodySend(x) =>
      var p := Get(s, x);
      Put(s, x, p.(log := p.log + [Raw(p.source[p.sent])], sent := p.sent + 1))
    case BodyStop(x) => Put(s, x, Get(s, x).(ended := true))
    case BodyTake(x) => TakeByte(s, x)
    case BodyEnd(x) => Put(s, x, Get(s, x).(sawEnd := true))
    case BodyLeave(x) =>
      if k.WriteFile? then Put(s, x, Get(s, x).(stage := if x.Client? then ReadFinal else SendFinal))
      else Put(s, x, Close(Get(s, x)))
    case CopyFails => s.(server := s.server.(stage := SendFinal))
    case CallerLeaves => s.(caller := s.caller.(gone := true))
    case CallerAnswers(a) => s.(caller := s.caller.(answer := a))
    case Abort(x) => Put(s, x, Close(Get(s, x)))
  }

  function TakeByte(s: State, x: Side): State
    requires Get(s, x).pos < |Get(s, Other(x)).log|
  {
    var p := Get(s, x);
    var item := Get(s, Other(x)).log[p.pos];
    if item.Raw? then Put(s, x, p.(pos := p.pos + 1, got := p.got + [item.b]))
    else Put(s, x, Close(p)).(confused := true)
  }

  function Exec(k: Kind, s: State, es: seq<Event>): Option<State>
    decreases |es|
  {
    if es == [] then Some(s)
    else if Enabled(k, s, es[0]) then Exec(k, Apply(k, s, es[0]), es[1..])
    else None
  }

  // ----- the invariant -------------------------------------------------------------------

  /** How many frames a side puts before its body. */
  function Base(k: Kind, x: Side): nat {
    if x.Server? && k.ReadFile? then 3 else 2
  }

  /** Behind its frames a party's log holds the bytes of its source, in order. */
  predicate BodyShape(k: Kind, x: Side, log: seq<Item>, sent: nat, source: seq<byte>) {
    var base := Base(k, x);
    && sent <= |source|
    && sent == (if Sends(k, x) && |log| > base then |log| - base else 0)
    && (Sends(k, x) ==> forall i :: base <= i < |log| ==> log[i] == Raw(source[i - base]))
  }

  predicate ClientLog(k: Kind, log: seq<Item>, sent: nat, source: seq<byte>) {
    && (|log| > 0 ==> log[0] == Typed(CommandType))
    && (|log| > 1 ==> log[1] == Typed(AckType) || log[1] == ErrorFrame)
    && (|log| > 2 ==> log[1] == Typed(AckType) && Sends(k, Client))
    && BodyShape(k, Client, log, sent, source)
  }

  predicate ServerLog(k: Kind, log: seq<Item>, sent: nat, source: seq<byte>) {
    && (|log| > 0 ==> log[0] == Typed(AckType))
    && (|log| > 1 ==> log[1] == Typed(OfferType(k)) || log[1] == ErrorFrame)
    && (|log| > 2 ==>
          && log[1] == Typed(OfferType(k))
          && (k.ReadFile? ==> log[2] == Typed(AckType) || log[2] == ErrorFrame)
          && (k.WriteFile? ==> |log| == 3 && (log[2] == Typed(AckType) || log[2] == RefusingAck)))
    && (|log| > 3 && k.ReadFile? ==> log[2] == Typed(AckType))
    && BodyShape(k, Server, log, sent, source)
  }

  predicate ClientStage(k: Kind, c: Party) {
    match c.stage
    case WriteCommand => |c.log| == 0 && c.pos == 0
    case ReadAck => |c.log| == 1 && c.pos == 0
    case ReadOffer => |c.log| == 1 && c.pos == 1
    case AwaitAnswer => |c.log| == 1 && c.pos == 2
    case ReadOpenAck => k.ReadFile? && |c.log| == 2 && c.pos == 2
    case Body => |c.log| >= 2 && c.pos == (if k.WriteFile? then 2 else Base(k, Server) + |c.got|)
    case ReadFinal => k.WriteFile? && |c.log| >= 2 && c.pos == 2
    case Closed => true
    case _ => false
  }

  predicate ServerStage(k: Kind, v: Party) {
    match v.stage
    case ReadCommand => |v.log| == 0 && v.pos == 0
    case SendAck => |v.log| == 0 && v.pos == 1
    case SendOffer => |v.log| == 1 && v.pos == 1
    case ReadGo => |v.log| == 2 && v.log[1] == Typed(OfferType(k)) && v.pos == 1
    case OpenFile => k.ReadFile? && |v.log| == 2 && v.log[1] == Typed(OfferType(k)) && v.pos == 2
    case Body =>
      |v.log| >= Base(k, Server) && v.log[1] == Typed(OfferType(k))
      && (k.ReadFile? ==> v.log[2] == Typed(AckType))
      && (k.WriteFile? ==> |v.log| == 2)
      && v.pos == (if k.ReadFile? then 2 else 2 + |v.got|)
    case SendFinal => k.WriteFile? && |v.log| == 2 && v.log[1] == Typed(OfferType(k))
    case Closed => true
    case _ => false
  }

  /** A party still in its program has not finished its sending half early, and
      has received nothing before its body phase. */
  predicate Halves(k: Kind, x: Side, p: Party) {
    && (InProgram(x, p.stage) ==> !p.ended || p.stage.ReadFinal?)
    && (InProgram(x, p.stage) && !p.stage.SendFinal? ==> p.got == [] && !p.sawEnd)
    && (!Receives(k, x) ==> p.got == [] && !p.sawEnd)
    && (p.stage.ReadFinal? ==> p.ended)
    && (p.stage.Body? && !Sends(k, x) ==> !p.ended)
    && (p.stage.Closed? ==> p.ended)
    && (p.ended && !p.stage.Closed? ==> Sends(k, x))
  }

  /** What each side has got is the beginning of what the other has sent. */
  predicate Delivered(p: Party, from: Party) {
    |p.got| <= from.sent <= |from.source| && p.got == from.source[..|p.got|]
  }

  /** The end of the stream was seen after everything sent before it. */
  predicate EndMeansAll(p: Party, from: Party) {
    p.sawEnd ==> from.ended && |p.got| == from.sent
  }

  /** What the sides know of each other. */
  predicate Agreed(k: Kind, s: State) {
    var c, v, a := s.client, s.server, s.caller;
    && (c.stage.AwaitAnswer? || c.stage.ReadOpenAck? || c.stage.Body? || c.stage.ReadFinal? ==>
          |v.log| >= 2 && v.log[1] == Typed(OfferType(k)))
    && (c.stage.Body? && k.ReadFile? ==> |v.log| >= 3 && v.log[2] == Typed(AckType))
    && (|c.log| >= 2 && c.log[1] == Typed(AckType) ==> a.offered && a.answer.Yes?)
    && (|c.log| >= 2 && c.log[1] == ErrorFrame ==> a.offered && a.answer.No?)
    && (c.stage.ReadOpenAck? || c.stage.Body? || c.stage.ReadFinal? ==> |c.log| >= 2 && c.log[1] == Typed(AckType))
    && (v.stage.OpenFile? || v.stage.Body? || v.stage.SendFinal? || |v.log| > 2 ==>
          |c.log| >= 2 && c.log[1] == Typed(AckType))
    && (a.offered ==> a.offers == 1)
    && a.offers <= 1
    && (c.stage.WriteCommand? || c.stage.ReadAck? || c.stage.ReadOffer? ==> a.offers == 0)
    && (c.stage.AwaitAnswer? ==> a.offered)
    && (!a.answer.Undecided? ==> a.offered)
  }

  /** A write is acknowledged with success only after the end of its body was seen,
      and a client that took its third frame off took that success. */
  predicate FinalMeansEnd(k: Kind, c: Party, v: Party) {
    && (k.WriteFile? && |v.log| > 2 && v.log[2] == Typed(AckType) ==> v.sawEnd)
    && (k.WriteFile? && c.pos > 2 ==> |v.log| > 2 && v.log[2] == Typed(AckType))
  }

  predicate Inv(k: Kind, s: State) {
    && ClientLog(k, s.client.log, s.client.sent, s.client.source)
    && ServerLog(k, s.server.log, s.server.sent, s.server.source)
    && ClientStage(k, s.client) && ServerStage(k, s.server)
    && Halves(k, Client, s.client) && Halves(k, Server, s.server)
    && Delivered(s.client, s.server) && Delivered(s.server, s.client)
    && EndMeansAll(s.client, s.server) && EndMeansAll(s.server, s.client)
    && Agreed(k, s) && FinalMeansEnd(k, s.client, s.server)
    && !s.confused
  }

  /** The client never meets a frame it cannot read where it stands. */
  lemma ClientFinds(k: Kind, s: State)
    requires Inv(k, s) && Ready(k, s, Client) && Awaited(k, s.client.stage).Some?
    ensures var found, v := FrameAt(s, Client, Awaited(k, s.client.stage).value), s.server;
            && !found.Mismatch? && !found.Wait?
            && (found.Good? && s.client.stage.ReadOffer? ==> |v.log| >= 2 && v.log[1] == Typed(OfferType(k)))
            && (found.Good? && (s.client.stage.ReadOpenAck? || s.client.stage.ReadFinal?) ==>
                  |v.log| >= 3 && v.log[2] == Typed(AckType))
  {
    hide ClientLog, BodyShape, Delivered, EndMeansAll, Halves, ServerStage;
  }

  lemma ServerFinds(k: Kind, s: State)
    requires Inv(k, s) && Ready(k, s, Server) && Awaited(k, s.server.stage).Some?
    ensures var found, c := FrameAt(s, Server, Awaited(k, s.server.stage).value), s.client;
            && !found.Mismatch? && !found.Wait?
            && (found.Good? && s.server.stage.ReadGo? ==> |c.log| >= 2 && c.log[1] == Typed(AckType))
  {
    hide ServerLog, BodyShape, Delivered, EndMeansAll, Halves, ClientStage;
  }

  lemma ClientReadKeepsInv(k: Kind, s: State)
    requires Inv(k, s) && Enabled(k, s, ClientStep) && Awaited(k, s.client.stage).Some?
    ensures Inv(k, Apply(k, s, ClientStep))
  {
    hide ClientLog, ServerLog, ServerStage, FrameAt, OfferType;
    ClientFinds(k, s);
  }

  lemma ClientWriteKeepsInv(k: Kind, s: State)
    requires Inv(k, s) && Enabled(k, s, ClientStep) && Awaited(k, s.client.stage).None?
    ensures Inv(k, Apply(k, s, ClientStep))
  {
    hide ServerLog, FrameAt, OfferType;
  }

  lemma ServerReadKeepsInv(k: Kind, s: State, ok: bool)
    requires Inv(k, s) && Enabled(k, s, ServerStep(ok)) && Awaited(k, s.server.stage).Some?
    ensures Inv(k, Apply(k, s, ServerStep(ok)))
  {
    hide ClientLog, ServerLog, ClientStage, FrameAt, OfferType;
    ServerFinds(k, s);
  }

  lemma ServerGreetKeepsInv(k: Kind, s: State, ok: bool)
    requires Inv(k, s) && Enabled(k, s, ServerStep(ok)) && (s.server.stage.SendAck? || s.server.stage.SendOffer?)
    ensures Inv(k, Apply(k, s, ServerStep(ok)))
  {
    hide ClientLog, FrameAt, OfferType;
  }

  lemma ServerOpenKeepsInv(k: Kind, s: State, ok: bool)
    requires Inv(k, s) && Enabled(k, s, ServerStep(ok)) && s.server.stage.OpenFile?
    ensures Inv(k, Apply(k, s, ServerStep(ok)))
  {
    hide ClientLog, FrameAt, OfferType;
  }

  lemma ServerFinalKeepsInv(k: Kind, s: State, ok: bool)
    requires Inv(k, s) && Enabled(k, s, ServerStep(ok)) && s.server.stage.SendFinal?
    ensures Inv(k, Apply(k, s, ServerStep(ok)))
  {
    hide ClientLog, FrameAt, OfferType;
  }

  lemma ServerWriteKeepsInv(k: Kind, s: State, ok: bool)
    requires Inv(k, s) && Enabled(k, s, ServerStep(ok)) && Awaited(k, s.server.stage).None?
    ensures Inv(k, Apply(k, s, ServerStep(ok)))
  {
    hide Inv, Apply;
    if s.server.stage.OpenFile? {
      ServerOpenKeepsInv(k, s, ok);
    } else if s.server.stage.SendFinal? {
      ServerFinalKeepsInv(k, s, ok);
    } else {
      ServerGreetKeepsInv(k, s, ok);
    }
  }

  lemma BodySendKeepsInv(k: Kind, s: State, x: Side)
    requires Inv(k, s) && Enabled(k, s, BodySend(x))
    ensures Inv(k, Apply(k, s, BodySend(x)))
  {
    hide OfferType;
  }

  /** In its body phase a side only ever meets the other's body bytes, in order. */
  lemma BodyFinds(k: Kind, s: State, x: Side)
    requires Inv(k, s) && Enabled(k, s, BodyTake(x))
    ensures var p, q := Get(s, x), Get(s, Other(x));
            |p.got| < q.sent <= |q.source| && q.log[p.pos] == Raw(q.source[|p.got|])
  {
    hide OfferType, EndMeansAll, Halves;
  }

  lemma BodyTakeKeepsInv(k: Kind, s: State, x: Side)
    requires Inv(k, s) && Enabled(k, s, BodyTake(x))
    ensures Inv(k, Apply(k, s, BodyTake(x)))
  {
    hide OfferType, ClientLog, ServerLog;
    BodyFinds(k, s, x);
    var p, q := Get(s, x), Get(s, Other(x));
    assert q.source[..|p.got| + 1] == q.source[..|p.got|] + [q.source[|p.got|]];
  }

  lemma BodyEndKeepsInv(k: Kind, s: State, x: Side)
    requires Inv(k, s) && Enabled(k, s, BodyEnd(x))
    ensures Inv(k, Apply(k, s, BodyEnd(x)))
  {
    hide OfferType;
  }

  lemma BodyStopKeepsInv(k: Kind, s: State, x: Side)
    requires Inv(k, s) && Enabled(k, s, BodyStop(x))
    ensures Inv(k, Apply(k, s, BodyStop(x)))
  {
    hide OfferType, BodyShape;
  }

  lemma BodyLeaveKeepsInv(k: Kind, s: State, x: Side)
    requires Inv(k, s) && Enabled(k, s, BodyLeave(x))
    ensures Inv(k, Apply(k, s, BodyLeave(x)))
  {
    hide OfferType, BodyShape;
  }

  lemma CopyFailsKeepsInv(k: Kind, s: State)
    requires Inv(k, s) && Enabled(k, s, CopyFails)
    ensures Inv(k, Apply(k, s, CopyFails))
  {
    hide OfferType, ClientLog;
  }

  lemma CallerStepKeepsInv(k: Kind, s: State, e: Event)
    requires Inv(k, s) && Enabled(k, s, e) && (e.CallerLeaves? || e.CallerAnswers?)
    ensures Inv(k, Apply(k, s, e))
  {
    hide OfferType, ClientLog, ServerLog, ServerStage, Halves, Delivered, EndMeansAll;
  }

  lemma AbortKeepsInv(k: Kind, s: State, x: Side)
    requires Inv(k, s) && Enabled(k, s, Abort(x))
    ensures Inv(k, Apply(k, s, Abort(x)))
  {
    hide OfferType, BodyShape;
  }

  lemma StepKeepsInv(k: Kind, s: State, e: Event)
    requires Inv(k, s) && Enabled(k, s, e)
    ensures Inv(k, Apply(k, s, e))
  {
    hide Inv, Apply, Enabled;
    match e
    case ClientStep =>
      if Awaited(k, s.client.stage).Some? {
        ClientReadKeepsInv(k, s);
      } else {
        ClientWriteKeepsInv(k, s);
      }
    case ServerStep(ok) =>
      if Awaited(k, s.server.stage).Some? {
        ServerReadKeepsInv(k, s, ok);
      } else {
        ServerWriteKeepsInv(k, s, ok);
      }
    case BodySend(x) => BodySendKeepsInv(k, s, x);
    case BodyTake(x) => BodyTakeKeepsInv(k, s, x);
    case BodyEnd(x) => BodyEndKeepsInv(k, s, x);
    case BodyStop(x) => BodyStopKeepsInv(k, s, x);
    case BodyLeave(x) => BodyLeaveKeepsInv(k, s, x);
    case CopyFails => CopyFailsKeepsInv(k, s);
    case CallerLeaves => CallerStepKeepsInv(k, s, e);
    case CallerAnswers(_) => CallerStepKeepsInv(k, s, e);
    case Abort(x) => AbortKeepsInv(k, s, x);
  }

  lemma SourcesStay(k: Kind, s: State, e: Event)
    requires Enabled(k, s, e)
    ensures SameSources(s, Apply(k, s, e))
  {
    hide ApplyClient, ApplyServer;
  }

  lemma {:induction false} RunKeepsInv(k: Kind, s: State, es: seq<Event>, t: State)
    requires Inv(k, s) && Exec(k, s, es) == Some(t)
    ensures Inv(k, t) && SameSources(s, t)
    decreases |es|
  {
    hide Inv, Apply, Enabled;
    if es != [] {
      StepKeepsInv(k, s, es[0]);
      SourcesStay(k, s, es[0]);
      RunKeepsInv(k, Apply(k, s, es[0]), es[1..], t);
    }
  }

  // ----- what every session shows -------------------------------------------------------------

  /** `s` is a state of a session whose sides would send these bodies. */
  ghost predicate Reachable(k: Kind, fromClient: seq<byte>, fromServer: seq<byte>, s: State) {
    exists es :: Exec(k, Initial(fromClient, fromServer), es) == Some(s)
  }

  lemma ReachableInv(k: Kind, fromClient: seq<byte>, fromServer: seq<byte>, s: State)
    requires Reachable(k, fromClient, fromServer, s)
    ensures Inv(k, s) && s.client.source == fromClient && s.server.source == fromServer
  {
    var es :| Exec(k, Initial(fromClient, fromServer), es) == Some(s);
    RunKeepsInv(k, Initial(fromClient, fromServer), es, s);
    hide Inv, Exec;
  }

  /** Client and handler never misread each other, and not one body byte is on
      the stream unless the caller was offered the first phase's value and said
      yes to it; the handler does not even enter the body phase before. */
  lemma BodyIsGated(k: Kind, fromClient: seq<byte>, fromServer: seq<byte>, s: State)
    requires Reachable(k, fromClient, fromServer, s)
    ensures !s.confused
    ensures s.client.sent > 0 || s.server.sent > 0 || s.client.stage.Body? || s.server.stage.Body? ==>
              s.caller.offered && s.caller.answer.Yes?
    ensures s.caller.offers <= 1
  {
    ReachableInv(k, fromClient, fromServer, s);
    hide Delivered, EndMeansAll;
  }

  /** What lies next before a side is what it is about to read: the frame its program
      waits for, or one that tells of an error, and in the body phase a body byte. */
  lemma NextItemIsExpected(k: Kind, fromClient: seq<byte>, fromServer: seq<byte>, s: State, x: Side)
    requires Reachable(k, fromClient, fromServer, s) && Get(s, x).pos < |Get(s, Other(x)).log|
    ensures var p := Get(s, x);
            var item := Get(s, Other(x)).log[p.pos];
            && (Awaited(k, p.stage).Some? ==>
                  var ty := Awaited(k, p.stage).value;
                  item == Typed(ty) || item.ErrorFrame? || (item.RefusingAck? && ty.AckType?))
            && (p.stage.Body? && Receives(k, x) ==> item.Raw?)
  {
    ReachableInv(k, fromClient, fromServer, s);
    hide Delivered, EndMeansAll, Halves;
  }

  /** Whatever a side has received is the beginning of what the other set out to
      send; if it saw the end of the stream, it is the whole of it if and only if
      the sender did not stop short. */
  lemma BodyArrivesInOrder(k: Kind, fromClient: seq<byte>, fromServer: seq<byte>, s: State, x: Side)
    requires Reachable(k, fromClient, fromServer, s)
    ensures var p, q := Get(s, x), Get(s, Other(x));
            && p.got <= q.source
            && (p.sawEnd ==> (p.got == q.source <==> q.sent == |q.source|))
  {
    ReachableInv(k, fromClient, fromServer, s);
    hide ClientLog, ServerLog, ClientStage, ServerStage, Halves, Agreed;
  }

  /** End to end: a client that has read the final success of a write faces a
      handler that has received every byte it sent. */
  lemma AcknowledgedWriteArrived(fromClient: seq<byte>, fromServer: seq<byte>, s: State)
    requires Reachable(WriteFile, fromClient, fromServer, s) && s.client.pos > 2
    ensures |s.server.log| == 3 && s.server.log[2] == Typed(AckType)
    ensures s.server.sawEnd && s.client.sent <= |fromClient| && s.server.got == fromClient[..s.client.sent]
    ensures s.server.got == fromClient <==> s.client.sent == |fromClient|
  {
    ReachableInv(WriteFile, fromClient, fromServer, s);
    hide ClientLog, ClientStage, ServerStage, Halves, Agreed;
  }

  /** A step the two programs take of themselves: not an abort, not a failure,
      not the caller's doing, and no stopping short of the source's end. */
  predicate Voluntary(s: State, e: Event) {
    match e
    case Abort(_) => false
    case CopyFails => false
    case CallerLeaves => false
    case CallerAnswers(_) => false
    case BodyStop(x) => Get(s, x).sent == |Get(s, x).source|
    case _ => true
  }

  ghost predicate CanMove(k: Kind, s: State) {
    exists e :: Enabled(k, s, e) && Voluntary(s, e)
  }

  /** No deadlock: while either side is still at work, one of them can move,
      unless the task is waiting for the caller to make up its mind. */
  lemma NoDeadlock(k: Kind, fromClient: seq<byte>, fromServer: seq<byte>, s: State)
    requires Reachable(k, fromClient, fromServer, s)
    requires !s.client.stage.Closed? || !s.server.stage.Closed?
    ensures CanMove(k, s) || (s.client.stage.AwaitAnswer? && s.caller.answer.Undecided?)
  {
    ReachableInv(k, fromClient, fromServer, s);
    hide Inv, Enabled, NextStep, Voluntary;
    if !(s.client.stage.AwaitAnswer? && s.caller.answer.Undecided?) {
      SomeoneMoves(k, s);
    }
  }

  /** What a side would do next. */
  function NextStep(k: Kind, s: State, x: Side): Event {
    var p := Get(s, x);
    if !p.stage.Body? then (if x.Client? then ClientStep else ServerStep(true))
    else if Sends(k, x) && !p.ended then (if p.sent < |p.source| then BodySend(x) else BodyStop(x))
    else if BodyOver(k, p, x) then BodyLeave(x)
    else if p.pos < |Get(s, Other(x)).log| then BodyTake(x)
    else BodyEnd(x)
  }

  lemma SomeoneMoves(k: Kind, s: State)
    requires Inv(k, s) && (!s.client.stage.Closed? || !s.server.stage.Closed?)
    requires !(s.client.stage.AwaitAnswer? && s.caller.answer.Undecided?)
    ensures var c, v := NextStep(k, s, Client), NextStep(k, s, Server);
            (Enabled(k, s, c) && Voluntary(s, c)) || (Enabled(k, s, v) && Voluntary(s, v))
  {
    hide OfferType, EndMeansAll, BodyShape;
  }

  // ----- sessions end ---------------------------------------------------------------------------

  function StageRank(g: Stage): nat {
    match g
    case WriteCommand => 8
    case ReadCommand => 8
    case ReadAck => 7
    case SendAck => 7
    case ReadOffer => 6
    case SendOffer => 6
    case AwaitAnswer => 5
    case ReadGo => 5
    case ReadOpenAck => 4
    case OpenFile => 4
    case Body => 3
    case ReadFinal => 2
    case SendFinal => 2
    case Closed => 0
  }

  /** Each byte of a party's source counts twice: it is yet to be sent, and then
      to be received. */
  function Weight(p: Party): int {
    StageRank(p.stage) + (if p.ended then 0 else 1) + (if p.sawEnd then 0 else 1)
    + 2 * |p.source| - p.sent - |p.got|
  }

  function CallerWeight(c: Caller): nat {
    (if c.gone then 0 else 1) + (if c.answer.Undecided? then 1 else 0)
  }

  function Rank(s: State): int {
    Weight(s.client) + Weight(s.server) + CallerWeight(s.caller)
  }

  /** A program step touches nothing the body counts, and leads to a stage
      of lower rank. */
  predicate MovesOn(p: Party, p': Party) {
    && p'.source == p.source && p'.sent == p.sent && p'.got == p.got && p'.sawEnd == p.sawEnd
    && (p.ended ==> p'.ended)
    && StageRank(p'.stage) < StageRank(p.stage)
  }

  lemma ClientMovesOn(k: Kind, s: State)
    requires Ready(k, s, Client)
    ensures var t := ApplyClient(k, s);
            MovesOn(s.client, t.client) && t.server == s.server
            && t.caller.(offers := 0, offered := false) == s.caller.(offers := 0, offered := false)
  {
    hide FrameAt, OfferType, StageRank;
    ClientRanks();
  }

  lemma ServerMovesOn(k: Kind, s: State, ok: bool)
    requires Ready(k, s, Server)
    ensures var t := ApplyServer(k, s, ok);
            MovesOn(s.server, t.server) && t.client == s.client && t.caller == s.caller
  {
    hide FrameAt, OfferType, StageRank;
    ServerRanks();
  }

  lemma ServerRanks()
    ensures StageRank(ReadCommand) == 8 && StageRank(SendAck) == 7
            && StageRank(SendOffer) == 6 && StageRank(ReadGo) == 5
    ensures StageRank(OpenFile) == 4 && StageRank(Body) == 3 && StageRank(SendFinal) == 2 && StageRank(Closed) == 0
  {
  }

  lemma ClientRanks()
    ensures StageRank(WriteCommand) == 8 && StageRank(ReadAck) == 7
            && StageRank(ReadOffer) == 6 && StageRank(AwaitAnswer) == 5
    ensures StageRank(ReadOpenAck) == 4 && StageRank(Body) == 3 && StageRank(ReadFinal) == 2 && StageRank(Closed) == 0
  {
  }

  lemma MovingOnLowersWeight(p: Party, p': Party)
    requires MovesOn(p, p')
    ensures Weight(p') < Weight(p)
  {
    hide StageRank;
  }

  lemma ClientStepLowersRank(k: Kind, s: State)
    requires Enabled(k, s, ClientStep)
    ensures Rank(Apply(k, s, ClientStep)) < Rank(s)
  {
    hide ApplyClient, Ready, Weight;
    ClientMovesOn(k, s);
    MovingOnLowersWeight(s.client, ApplyClient(k, s).client);
  }

  lemma ServerStepLowersRank(k: Kind, s: State, ok: bool)
    requires Enabled(k, s, ServerStep(ok))
    ensures Rank(Apply(k, s, ServerStep(ok))) < Rank(s)
  {
    hide ApplyServer, Ready, Weight;
    ServerMovesOn(k, s, ok);
    MovingOnLowersWeight(s.server, ApplyServer(k, s, ok).server);
  }

  lemma PutLowersRank(s: State, x: Side, p: Party)
    requires Weight(p) < Weight(Get(s, x))
    ensures Rank(Put(s, x, p)) < Rank(s)
  {
    hide Weight;
  }

  lemma BodyStepLowersRank(k: Kind, s: State, e: Event)
    requires Enabled(k, s, e) && (e.BodySend? || e.BodyStop? || e.BodyEnd?)
    ensures Rank(Apply(k, s, e)) < Rank(s)
  {
    hide StageRank, Rank;
    var p := Get(s, e.side);
    if e.BodySend? {
      PutLowersRank(s, e.side, p.(log := p.log + [Raw(p.source[p.sent])], sent := p.sent + 1));
    } else if e.BodyStop? {
      PutLowersRank(s, e.side, p.(ended := true));
    } else {
      PutLowersRank(s, e.side, p.(sawEnd := true));
    }
  }

  lemma CallerStepLowersRank(k: Kind, s: State, e: Event)
    requires Enabled(k, s, e) && (e.CallerLeaves? || e.CallerAnswers?)
    ensures Rank(Apply(k, s, e)) < Rank(s)
  {
    hide Weight;
  }

  lemma StageRanks()
    ensures StageRank(Closed) == 0 && StageRank(Body) == 3 && StageRank(ReadFinal) == 2 && StageRank(SendFinal) == 2
    ensures forall g: Stage :: !g.Closed? ==> StageRank(g) >= 2
  {
  }

  lemma LeaveLowersRank(k: Kind, s: State, e: Event)
    requires Enabled(k, s, e) && (e.BodyLeave? || e.Abort?)
    ensures Rank(Apply(k, s, e)) < Rank(s)
  {
    StageRanks();
    hide StageRank, Rank;
    var p := Get(s, e.side);
    if e.Abort? || !k.WriteFile? {
      PutLowersRank(s, e.side, Close(p));
    } else {
      PutLowersRank(s, e.side, p.(stage := if e.side.Client? then ReadFinal else SendFinal));
    }
  }

  lemma CopyFailsLowersRank(k: Kind, s: State)
    requires Enabled(k, s, CopyFails)
    ensures Rank(Apply(k, s, CopyFails)) < Rank(s)
  {
    StageRanks();
    hide StageRank, Rank;
    PutLowersRank(s, Server, s.server.(stage := SendFinal));
  }

  lemma BodyTakeLowersRank(k: Kind, s: State, x: Side)
    requires Inv(k, s) && Enabled(k, s, BodyTake(x))
    ensures Rank(Apply(k, s, BodyTake(x))) < Rank(s)
  {
    hide StageRank, Rank, Inv;
    BodyFinds(k, s, x);
    var p, q := Get(s, x), Get(s, Other(x));
    PutLowersRank(s, x, p.(pos := p.pos + 1, got := p.got + [q.log[p.pos].b]));
  }

  /** Every session is finite: counting the caller's part, its failures and its
      aborts, it has no more than so many steps. */
  lemma SessionsEnd(k: Kind, fromClient: seq<byte>, fromServer: seq<byte>, es: seq<Event>)
    requires Exec(k, Initial(fromClient, fromServer), es).Some?
    ensures |es| <= 22 + 2 * |fromClient| + 2 * |fromServer|
  {
    RankBoundsRun(k, Initial(fromClient, fromServer), es, Exec(k, Initial(fromClient, fromServer), es).value);
  }

  lemma {:induction false} RankBoundsRun(k: Kind, s: State, es: seq<Event>, t: State)
    requires Inv(k, s) && Exec(k, s, es) == Some(t)
    ensures |es| <= Rank(s)
    decreases |es|
  {
    if es == [] {
      assert Delivered(s.client, s.server) && Delivered(s.server, s.client);
    } else {
      hide Inv, Enabled, Apply, Rank;
      StepKeepsInv(k, s, es[0]);
      StepLowersRank(k, s, es[0]);
      RankBoundsRun(k, Apply(k, s, es[0]), es[1..], t);
    }
  }

  lemma StepLowersRank(k: Kind, s: State, e: Event)
    requires Inv(k, s) && Enabled(k, s, e)
    ensures Rank(Apply(k, s, e)) < Rank(s)
  {
    hide Inv, Enabled, Apply, Rank;
    if e.ClientStep? {
      ClientStepLowersRank(k, s);
    } else if e.ServerStep? {
      ServerStepLowersRank(k, s, e.ok);
    } else if e.BodyTake? {
      BodyTakeLowersRank(k, s, e.side);
    } else if e.BodyLeave? || e.Abort? {
      LeaveLowersRank(k, s, e);
    } else if e.CopyFails? {
      CopyFailsLowersRank(k, s);
    } else if e.CallerLeaves? || e.CallerAnswers? {
      CallerStepLowersRank(k, s, e);
    } else {
      BodyStepLowersRank(k, s, e);
    }
  }
}
