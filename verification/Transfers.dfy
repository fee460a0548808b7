/** Sessions that go through: for each kind of command and every body there is a
    session that carries it, and for each way to refuse one that ends refused. An
    upload is followed from its session to the handler that puts it on the disk. */
module Transfers {
  import opened Wire
  import opened Session
  import A = AtomicWrite

  lemma {:induction false} Extend(k: Kind, s: State, es: seq<Event>, e: Event)
    requires Exec(k, s, es).Some? && Enabled(k, Exec(k, s, es).value, e)
    ensures Exec(k, s, es + [e]) == Some(Apply(k, Exec(k, s, es).value, e))
    decreases |es|
  {
    hide Enabled, Apply;
    if es == [] {
      assert es + [e] == [e];
      assert [e][1..] == [];
    } else {
      Extend(k, Apply(k, s, es[0]), es[1..], e);
      assert (es + [e])[1..] == es[1..] + [e];
    }
  }

  /** What a session of some kind is about. */
  datatype Job = Job(kind: Kind, fromClient: seq<byte>, fromServer: seq<byte>)

  ghost predicate Reached(j: Job, s: State) {
    Reachable(j.kind, j.fromClient, j.fromServer, s)
  }

  lemma ReachStep(j: Job, s: State, e: Event) returns (t: State)
    requires Reached(j, s) && Enabled(j.kind, s, e)
    ensures t == Apply(j.kind, s, e) && Reached(j, t)
  {
    t := Apply(j.kind, s, e);
    var es :| Exec(j.kind, Initial(j.fromClient, j.fromServer), es) == Some(s);
    hide Apply, Enabled, Initial;
    Extend(j.kind, Initial(j.fromClient, j.fromServer), es, e);
  }

  function Raws(b: seq<byte>): (r: seq<Item>)
    ensures |r| == |b|
  {
    seq(|b|, i requires 0 <= i < |b| => Raw(b[i]))
  }

  lemma OneMoreRaw(b: seq<byte>, n: nat)
    requires n < |b|
    ensures Raws(b[..n]) + [Raw(b[n])] == Raws(b[..n + 1]) && b[..n] + [b[n]] == b[..n + 1]
  {
  }

  const CLIENT_FRAMES := [Typed(CommandType), Typed(AckType)]

  function ServerFrames(k: Kind): seq<Item> {
    [Typed(AckType), Typed(OfferType(k))] + if k.ReadFile? then [Typed(AckType)] else []
  }

  const AGREED := Caller(false, 1, true, Yes)

  predicate InRange(j: Job, n: nat, m: nat) {
    && n <= |j.fromClient| && m <= |j.fromServer|
    && (n > 0 ==> Sends(j.kind, Client)) && (m > 0 ==> Sends(j.kind, Server))
  }

  /** `n` bytes of the client's body and `m` of the server's have gone across. */
  function Flowing(j: Job, n: nat, m: nat): State
    requires InRange(j, n, m)
  {
    State(Party(Body, CLIENT_FRAMES + Raws(j.fromClient[..n]), |ServerFrames(j.kind)| + m, false, j.fromClient, n,
                j.fromServer[..m], false),
          Party(Body, ServerFrames(j.kind) + Raws(j.fromServer[..m]), 2 + n, false, j.fromServer, m,
                j.fromClient[..n], false),
          AGREED, false)
  }

  // ----- opening -------------------------------------------------------------------

  /** The command has been heard and acknowledged; the handler is about to answer. */
  lemma Greets(j: Job) returns (s: State)
    ensures Reached(j, s)
    ensures s.client == Party(ReadAck, [Typed(CommandType)], 0, false, j.fromClient, 0, [], false)
    ensures s.server == Party(SendOffer, [Typed(AckType)], 1, false, j.fromServer, 0, [], false)
    ensures s.caller == Caller(false, 0, false, Undecided) && !s.confused
  {
    var s0 := Initial(j.fromClient, j.fromServer);
    assert Exec(j.kind, s0, []) == Some(s0);
    hide Reached, OfferType;
    var s1 := ReachStep(j, s0, ClientStep);
    var s2 := ReachStep(j, s1, ServerStep(true));
    s := ReachStep(j, s2, ServerStep(true));
  }

  /** The caller has been offered the first phase's value. */
  lemma Offers(j: Job) returns (s: State)
    ensures Reached(j, s)
    ensures s.client == Party(AwaitAnswer, [Typed(CommandType)], 2, false, j.fromClient, 0, [], false)
    ensures s.server == Party(ReadGo, [Typed(AckType), Typed(OfferType(j.kind))], 1, false, j.fromServer, 0, [], false)
    ensures s.caller == Caller(false, 1, true, Undecided) && !s.confused
  {
    hide Reached, OfferType;
    var s0 := Greets(j);
    var s1 := ReachStep(j, s0, ServerStep(true));
    var s2 := ReachStep(j, s1, ClientStep);
    s := ReachStep(j, s2, ClientStep);
  }

  /** The caller agrees and the handler hears it. */
  lemma Agrees(j: Job) returns (s: State)
    ensures Reached(j, s)
    ensures s.client == Party(if j.kind.ReadFile? then ReadOpenAck else Body, CLIENT_FRAMES,
                              2, false, j.fromClient, 0, [], false)
    ensures s.server == Party(if j.kind.ReadFile? then OpenFile else Body, [Typed(AckType), Typed(OfferType(j.kind))],
                              2, false, j.fromServer, 0, [], false)
    ensures s.caller == AGREED && !s.confused
  {
    hide Reached, OfferType;
    var s0 := Offers(j);
    var s1 := ReachStep(j, s0, CallerAnswers(Yes));
    var s2 := ReachStep(j, s1, ClientStep);
    s := ReachStep(j, s2, ServerStep(true));
  }

  lemma Opens(j: Job)
    ensures Reached(j, Flowing(j, 0, 0))
  {
    hide Reached, OfferType;
    var s := Agrees(j);
    if j.kind.ReadFile? {
      var s1 := ReachStep(j, s, ServerStep(true));
      s := ReachStep(j, s1, ClientStep);
    }
    assert s.client.log == CLIENT_FRAMES + Raws(j.fromClient[..0]);
    assert s.server.log == ServerFrames(j.kind) + Raws(j.fromServer[..0]);
    assert s == Flowing(j, 0, 0);
  }

  // ----- the bodies ------------------------------------------------------------------

  lemma ClientSendsOne(j: Job, n: nat, m: nat)
    requires InRange(j, n + 1, m) && Reached(j, Flowing(j, n, m))
    ensures Reached(j, Flowing(j, n + 1, m))
  {
    hide Reached, Raws, ServerFrames;
    OneMoreRaw(j.fromClient, n);
    var s1 := ReachStep(j, Flowing(j, n, m), BodySend(Client));
    assert s1.client.log == CLIENT_FRAMES + Raws(j.fromClient[..n + 1]);
    var s2 := ReachStep(j, s1, BodyTake(Server));
    assert s2 == Flowing(j, n + 1, m);
  }

  lemma ServerSendsOne(j: Job, n: nat, m: nat)
    requires InRange(j, n, m + 1) && Reached(j, Flowing(j, n, m))
    ensures Reached(j, Flowing(j, n, m + 1))
  {
    hide Reached, Raws, ServerFrames;
    OneMoreRaw(j.fromServer, m);
    var s1 := ReachStep(j, Flowing(j, n, m), BodySend(Server));
    assert s1.server.log == ServerFrames(j.kind) + Raws(j.fromServer[..m + 1]);
    var s2 := ReachStep(j, s1, BodyTake(Client));
    assert s2 == Flowing(j, n, m + 1);
  }

  lemma {:induction false} Flows(j: Job, n: nat, m: nat)
    requires InRange(j, n, m)
    ensures Reached(j, Flowing(j, n, m))
    decreases n + m
  {
    hide Reached, Flowing;
    if n > 0 {
      Flows(j, n - 1, m);
      ClientSendsOne(j, n - 1, m);
    } else if m > 0 {
      Flows(j, n, m - 1);
      ServerSendsOne(j, n, m - 1);
    } else {
      Opens(j);
    }
  }

  /** Every file can be read: some session gives the caller all of its bytes, and the
      end behind them. */
  lemma ReadDeliversAll(b: seq<byte>) returns (s: State)
    ensures Reachable(ReadFile, [], b, s)
    ensures s.client.stage.Closed? && s.server.stage.Closed? && s.client.got == b && s.client.sawEnd
  {
    var j := Job(ReadFile, [], b);
    Flows(j, 0, |b|);
    assert b[..|b|] == b;
    var s0 := Flowing(j, 0, |b|);
    assert Reached(j, s0);
    var s1 := ReachStep(j, s0, BodyStop(Server));
    var s2 := ReachStep(j, s1, BodyEnd(Client));
    var s3 := ReachStep(j, s2, BodyLeave(Client));
    s := ReachStep(j, s3, BodyLeave(Server));
  }

  /** Everything can be forwarded, both ways at once. */
  lemma ForwardDeliversAll(a: seq<byte>, b: seq<byte>) returns (s: State)
    ensures Reachable(Forward, a, b, s)
    ensures s.client.stage.Closed? && s.server.stage.Closed?
    ensures s.client.got == b && s.client.sawEnd && s.server.got == a && s.server.sawEnd
  {
    var j := Job(Forward, a, b);
    Flows(j, |a|, |b|);
    assert a[..|a|] == a && b[..|b|] == b;
    var s0 := Flowing(j, |a|, |b|);
    assert Reached(j, s0);
    hide Raws;
    var s1 := ReachStep(j, s0, BodyStop(Server));
    var s2 := ReachStep(j, s1, BodyStop(Client));
    var s3 := ReachStep(j, s2, BodyEnd(Client));
    var s4 := ReachStep(j, s3, BodyEnd(Server));
    var s5 := ReachStep(j, s4, BodyLeave(Client));
    s := ReachStep(j, s5, BodyLeave(Server));
  }

  /** Wherever an uploader stops, the handler sees the end of the stream after the
      bytes sent so far and acknowledges them with success, which the client reads. */
  lemma AnyPrefixIsAcknowledged(b: seq<byte>, n: nat) returns (s: State)
    requires n <= |b|
    ensures Reachable(WriteFile, b, [], s)
    ensures s.client.sent == n && s.server.sawEnd && s.server.got == b[..n]
    ensures s.server.log == ServerFrames(WriteFile) + [Typed(AckType)]
    ensures s.client.stage.Closed? && s.server.stage.Closed? && s.client.pos == 3
  {
    var j := Job(WriteFile, b, []);
    var s0 := HandlerSeesEnd(j, n);
    assert Reached(j, s0);
    hide Raws, Reached;
    var s3 := ReachStep(j, s0, BodyLeave(Server));
    var s4 := ReachStep(j, s3, ServerStep(true));
    var s5 := ReachStep(j, s4, BodyLeave(Client));
    s := ReachStep(j, s5, ClientStep);
    UploadReached(b, s);
  }

  lemma UploadReached(b: seq<byte>, s: State)
    requires Reached(Job(WriteFile, b, []), s)
    ensures Reachable(WriteFile, b, [], s)
  {
  }

  lemma HandlerSeesEnd(j: Job, n: nat) returns (s: State)
    requires j.kind.WriteFile? && n <= |j.fromClient|
    ensures Reached(j, s) && s.caller == AGREED && !s.confused
    ensures s.client == Flowing(j, n, 0).client.(ended := true)
    ensures s.server == Flowing(j, n, 0).server.(sawEnd := true)
  {
    hide Raws, Reached;
    Flows(j, n, 0);
    var s0 := Flowing(j, n, 0);
    var s1 := ReachStep(j, s0, BodyStop(Client));
    s := ReachStep(j, s1, BodyEnd(Server));
  }

  /** A copy that fails is acknowledged with an error, even if the body was all there. */
  lemma FailedCopyIsRefused(b: seq<byte>, n: nat) returns (s: State)
    requires n <= |b|
    ensures Reachable(WriteFile, b, [], s)
    ensures s.server.stage.Closed? && s.server.log == ServerFrames(WriteFile) + [RefusingAck]
  {
    var j := Job(WriteFile, b, []);
    Flows(j, n, 0);
    var s0 := Flowing(j, n, 0);
    assert Reached(j, s0);
    hide Raws;
    var s1 := ReachStep(j, s0, CopyFails);
    s := ReachStep(j, s1, ServerStep(true));
  }

  // ----- refusals ----------------------------------------------------------------------

  /** The handler's own first phase fails: the caller hears it, and both sides are
      done with nothing but frames on the stream. */
  lemma RefusedOfferEnds(j: Job) returns (s: State)
    ensures Reached(j, s) && s.client.stage.Closed? && s.server.stage.Closed?
    ensures s.caller == Caller(false, 1, false, Undecided)
    ensures s.client.log == [Typed(CommandType)] && s.server.log == [Typed(AckType), ErrorFrame]
  {
    hide Reached, OfferType;
    var s0 := Greets(j);
    var s1 := ReachStep(j, s0, ServerStep(false));
    var s2 := ReachStep(j, s1, ClientStep);
    s := ReachStep(j, s2, ClientStep);
  }

  /** The caller declines: the handler is told and ends. */
  lemma DeclinedOfferEnds(j: Job) returns (s: State)
    ensures Reached(j, s) && s.client.stage.Closed? && s.server.stage.Closed?
    ensures s.client.log == [Typed(CommandType), ErrorFrame]
    ensures s.server.log == [Typed(AckType), Typed(OfferType(j.kind))]
  {
    hide Reached, OfferType;
    var s0 := Offers(j);
    var s1 := ReachStep(j, s0, CallerAnswers(No));
    var s2 := ReachStep(j, s1, ClientStep);
    s := ReachStep(j, s2, ServerStep(true));
  }

  /** A file that cannot be opened after all: the second phase is refused. */
  lemma UnopenedFileEnds(b: seq<byte>) returns (s: State)
    ensures Reachable(ReadFile, [], b, s) && s.client.stage.Closed? && s.server.stage.Closed?
    ensures s.server.log == [Typed(AckType), Typed(MetadataType), ErrorFrame] && s.client.got == []
  {
    var j := Job(ReadFile, [], b);
    var s0 := Agrees(j);
    var s1 := ReachStep(j, s0, ServerStep(false));
    s := ReachStep(j, s1, ClientStep);
  }

  /** A client task that is past its first phase, or done without having been
      aborted, has answered its caller exactly once, if the caller was still there. */
  predicate CallerServed(s: State) {
    s.client.stage.WriteCommand? || s.client.stage.ReadAck? || s.client.stage.ReadOffer?
    || s.caller.gone || s.caller.offers == 1
  }

  lemma StepIsHeard(k: Kind, s: State, e: Event)
    requires Inv(k, s) && CallerServed(s) && Enabled(k, s, e) && e != Abort(Client)
    ensures CallerServed(Apply(k, s, e))
  {
    hide ClientLog, ServerLog, ServerStage, Halves, Delivered, EndMeansAll, FinalMeansEnd, FrameAt, OfferType;
    if e.ClientStep? && Awaited(k, s.client.stage).Some? {
      ClientFinds(k, s);
    }
  }

  lemma {:induction false} RunIsHeard(k: Kind, s: State, es: seq<Event>, t: State)
    requires Inv(k, s) && CallerServed(s) && Exec(k, s, es) == Some(t) && Abort(Client) !in es
    ensures CallerServed(t)
    decreases |es|
  {
    hide Inv, CallerServed, Enabled, Apply;
    if es != [] {
      StepIsHeard(k, s, es[0]);
      StepKeepsInv(k, s, es[0]);
      RunIsHeard(k, Apply(k, s, es[0]), es[1..], t);
    }
  }

  lemma CallerAlwaysHears(j: Job, es: seq<Event>, s: State)
    requires Exec(j.kind, Initial(j.fromClient, j.fromServer), es) == Some(s) && Abort(Client) !in es
    ensures s.client.stage.Closed? && !s.caller.gone ==> s.caller.offers == 1
  {
    hide Exec;
    var s0 := Initial(j.fromClient, j.fromServer);
    assert Inv(j.kind, s0) && CallerServed(s0);
    RunIsHeard(j.kind, s0, es, s);
  }

  // ----- every undisturbed session goes through ---------------------------------------------

  /** A step of a session in which nothing fails, nobody is cut off or leaves, the
      caller agrees, and no side stops short of its source's end. */
  predicate Smooth(s: State, e: Event) {
    match e
    case ServerStep(ok) => ok
    case CallerAnswers(a) => a.Yes?
    case _ => Voluntary(s, e)
  }

  function ExecSmooth(k: Kind, s: State, es: seq<Event>): Option<State>
    decreases |es|
  {
    if es == [] then Some(s)
    else if Enabled(k, s, es[0]) && Smooth(s, es[0]) then ExecSmooth(k, Apply(k, s, es[0]), es[1..])
    else None
  }

  /** How many frames a side has put on the stream, its final one included, when it
      is done. */
  function AllFrames(k: Kind, x: Side): nat {
    if x.Server? && k.WriteFile? then 3 else Base(k, x)
  }

  predicate NoRefusal(log: seq<Item>) {
    forall item <- log :: !item.ErrorFrame? && !item.RefusingAck?
  }

  /** A side that is done has done all its program asks for. */
  predicate WholeIfDone(k: Kind, p: Party, x: Side) {
    && NoRefusal(p.log)
    && (p.ended && Sends(k, x) ==> p.sent == |p.source|)
    && (p.stage.ReadFinal? || p.stage.SendFinal? || p.stage.Closed? ==> BodyOver(k, p, x))
    && (p.stage.Closed? ==> |p.log| >= AllFrames(k, x) && (k.WriteFile? && x.Client? ==> p.pos == 3))
  }

  predicate Undisturbed(k: Kind, s: State) {
    && WholeIfDone(k, s.client, Client) && WholeIfDone(k, s.server, Server)
    && !s.caller.gone && (s.caller.answer.Undecided? || s.caller.answer.Yes?)
  }

  /** No read fails. */
  lemma SmoothReads(k: Kind, s: State, x: Side)
    requires Inv(k, s) && Undisturbed(k, s) && Ready(k, s, x) && Awaited(k, Get(s, x).stage).Some?
    ensures FrameAt(s, x, Awaited(k, Get(s, x).stage).value).Good?
  {
    var p, q := Get(s, x), Get(s, Other(x));
    if p.pos < |q.log| {
      assert q.log[p.pos] in q.log;
    }
    if x.Client? {
      ClientFinds(k, s);
    } else {
      ServerFinds(k, s);
    }
    hide Delivered, EndMeansAll, BodyShape;
  }

  lemma SmoothClientStep(k: Kind, s: State)
    requires Inv(k, s) && Undisturbed(k, s) && Enabled(k, s, ClientStep)
    ensures Undisturbed(k, Apply(k, s, ClientStep))
  {
    if Awaited(k, s.client.stage).Some? {
      SmoothReads(k, s, Client);
    }
    hide FrameAt, ServerLog, ServerStage, Delivered, EndMeansAll, OfferType;
  }

  lemma SmoothServerStep(k: Kind, s: State)
    requires Inv(k, s) && Undisturbed(k, s) && Enabled(k, s, ServerStep(true))
    ensures Undisturbed(k, Apply(k, s, ServerStep(true)))
  {
    if Awaited(k, s.server.stage).Some? {
      SmoothReads(k, s, Server);
    }
    hide FrameAt, ClientLog, ClientStage, Delivered, EndMeansAll, OfferType;
  }

  lemma SmoothSend(k: Kind, s: State, x: Side)
    requires Undisturbed(k, s) && Enabled(k, s, BodySend(x))
    ensures Undisturbed(k, Apply(k, s, BodySend(x)))
  {
    hide Sends, Receives;
  }

  lemma SmoothTake(k: Kind, s: State, x: Side)
    requires Inv(k, s) && Undisturbed(k, s) && Enabled(k, s, BodyTake(x))
    ensures Undisturbed(k, Apply(k, s, BodyTake(x)))
  {
    BodyFinds(k, s, x);
    hide Inv, NoRefusal, Sends, Receives;
  }

  lemma SmoothMark(k: Kind, s: State, e: Event)
    requires Undisturbed(k, s) && Enabled(k, s, e) && Smooth(s, e) && (e.BodyStop? || e.BodyEnd? || e.CallerAnswers?)
    ensures Undisturbed(k, Apply(k, s, e))
  {
    hide NoRefusal, Sends, Receives;
  }

  lemma SmoothLeave(k: Kind, s: State, x: Side)
    requires Inv(k, s) && Undisturbed(k, s) && Enabled(k, s, BodyLeave(x))
    ensures Undisturbed(k, Apply(k, s, BodyLeave(x)))
  {
    hide NoRefusal, Delivered, EndMeansAll, OfferType, ClientLog, ServerLog, Agreed, FinalMeansEnd;
  }

  lemma SmoothOtherStep(k: Kind, s: State, e: Event)
    requires Inv(k, s) && Undisturbed(k, s) && Enabled(k, s, e) && Smooth(s, e) && !e.ClientStep? && !e.ServerStep?
    ensures Undisturbed(k, Apply(k, s, e))
  {
    match e
    case BodySend(x) => SmoothSend(k, s, x);
    case BodyTake(x) => SmoothTake(k, s, x);
    case BodyLeave(x) => SmoothLeave(k, s, x);
    case BodyStop(_) => SmoothMark(k, s, e);
    case BodyEnd(_) => SmoothMark(k, s, e);
    case CallerAnswers(_) => SmoothMark(k, s, e);
    case _ =>
  }

  lemma {:induction false} SmoothRun(k: Kind, s: State, es: seq<Event>)
    requires Inv(k, s) && Undisturbed(k, s) && ExecSmooth(k, s, es).Some?
    ensures var t := ExecSmooth(k, s, es).value;
            Inv(k, t) && Undisturbed(k, t) && SameSources(s, t)
    decreases |es|
  {
    if es != [] {
      var e := es[0];
      StepKeepsInv(k, s, e);
      SourcesStay(k, s, e);
      if e.ClientStep? {
        SmoothClientStep(k, s);
      } else if e.ServerStep? {
        SmoothServerStep(k, s);
      } else {
        SmoothOtherStep(k, s, e);
      }
      hide Inv, Undisturbed, Enabled, Apply;
      SmoothRun(k, Apply(k, s, e), es[1..]);
    }
  }

  /** However the steps of an undisturbed session interleave: when both sides are done,
      each that receives has the whole of the other's source and saw its end, a write
      was acknowledged with success, and the client has read that; neither ever read
      or sent anything that tells of an error. */
  lemma UndisturbedSessionsComplete(j: Job, es: seq<Event>, s: State, x: Side)
    requires ExecSmooth(j.kind, Initial(j.fromClient, j.fromServer), es) == Some(s)
    ensures NoRefusal(s.client.log) && NoRefusal(s.server.log)
    ensures s.client.stage.Closed? && s.server.stage.Closed? ==>
              && (Receives(j.kind, x) ==>
                    Get(s, x).sawEnd && Get(s, x).got == if x.Client? then j.fromServer else j.fromClient)
              && (j.kind.WriteFile? ==> |s.server.log| == 3 && s.server.log[2] == Typed(AckType) && s.client.pos == 3)
  {
    var s0 := Initial(j.fromClient, j.fromServer);
    assert Inv(j.kind, s0) && Undisturbed(j.kind, s0);
    SmoothRun(j.kind, s0, es);
    hide ExecSmooth, ClientLog, ClientStage, ServerStage, BodyShape;
    if s.client.stage.Closed? && s.server.stage.Closed? && j.kind.WriteFile? {
      assert s.server.log[2] in s.server.log;
    }
  }

  // ----- a side that is cut off, a caller that leaves -----------------------------------------

  lemma {:induction false} ClosedStays(k: Kind, s: State, es: seq<Event>, x: Side)
    requires Get(s, x).stage.Closed? && Exec(k, s, es).Some?
    ensures Get(Exec(k, s, es).value, x) == Get(s, x)
    decreases |es|
  {
    if es != [] {
      ClosedStep(k, s, es[0], x);
      hide Apply, Enabled;
      ClosedStays(k, Apply(k, s, es[0]), es[1..], x);
    }
  }

  lemma ClosedStep(k: Kind, s: State, e: Event, x: Side)
    requires Get(s, x).stage.Closed? && Enabled(k, s, e)
    ensures Get(Apply(k, s, e), x) == Get(s, x)
  {
    hide FrameAt, Awaited;
  }

  /** Either side can be cut off at any moment before its end; it then sends and takes
      nothing more, and nothing is added to or taken from what it had done. */
  lemma AbortIsFinal(k: Kind, s: State, x: Side)
    requires !Get(s, x).stage.Closed?
    ensures Enabled(k, s, Abort(x))
    ensures forall es: seq<Event> | Exec(k, Apply(k, s, Abort(x)), es).Some? ::
              Get(Exec(k, Apply(k, s, Abort(x)), es).value, x) == Get(s, x).(stage := Closed, ended := true)
  {
    var m := Apply(k, s, Abort(x));
    forall es: seq<Event> | Exec(k, m, es).Some?
      ensures Get(Exec(k, m, es).value, x) == Get(s, x).(stage := Closed, ended := true)
    {
      ClosedStays(k, m, es, x);
    }
  }

  lemma {:induction false} GoneStays(k: Kind, s: State, es: seq<Event>)
    requires s.caller.gone && !s.caller.offered && Exec(k, s, es).Some?
    ensures Exec(k, s, es).value.caller == s.caller
    decreases |es|
  {
    if es != [] {
      GoneStep(k, s, es[0]);
      hide Apply, Enabled;
      GoneStays(k, Apply(k, s, es[0]), es[1..]);
    }
  }

  lemma GoneStep(k: Kind, s: State, e: Event)
    requires s.caller.gone && !s.caller.offered && Enabled(k, s, e)
    ensures Apply(k, s, e).caller == s.caller
  {
    hide FrameAt, Awaited;
  }

  /** A caller can leave at any moment before it was offered something; it is offered
      nothing then, and no body is ever sent either way. */
  lemma DepartedCallerEndsIt(j: Job, s: State)
    requires Reached(j, s) && !s.caller.gone && s.caller.offers == 0
    ensures Enabled(j.kind, s, CallerLeaves)
    ensures forall es: seq<Event> | Exec(j.kind, Apply(j.kind, s, CallerLeaves), es).Some? ::
              var t := Exec(j.kind, Apply(j.kind, s, CallerLeaves), es).value;
              t.caller.offers == 0 && t.client.sent == 0 && t.server.sent == 0
  {
    ReachableInv(j.kind, j.fromClient, j.fromServer, s);
    StepKeepsInv(j.kind, s, CallerLeaves);
    var m := Apply(j.kind, s, CallerLeaves);
    assert m.caller.gone && !m.caller.offered && m.caller.offers == 0;
    hide Apply, Enabled, Reached;
    forall es: seq<Event> | Exec(j.kind, m, es).Some?
      ensures var t := Exec(j.kind, m, es).value;
              t.caller.offers == 0 && t.client.sent == 0 && t.server.sent == 0
    {
      RunKeepsInv(j.kind, m, es, Exec(j.kind, m, es).value);
      GoneStays(j.kind, m, es);
      UnofferedSendsNothing(j.kind, Exec(j.kind, m, es).value);
    }
  }

  lemma UnofferedSendsNothing(k: Kind, s: State)
    requires Inv(k, s) && !s.caller.offered
    ensures s.client.sent == 0 && s.server.sent == 0
  {
    hide Delivered, EndMeansAll;
  }

  // ----- an upload on the disk -----------------------------------------------------------

  /** Nothing on the stream tells an uploader that failed half way from one that was
      done: for every source, every prefix of it and every target that can be
      written, some session ends with just that prefix received and acknowledged,
      and the handler that received it can leave it in place of the target. */
  lemma TruncatedUploadReplacesTarget(d0: A.Disk, r: A.Request, b: seq<byte>, n: nat)
    requires A.WellFormed(d0) && r.target.Some? && A.Writable(d0, r) && n <= |b|
    ensures exists s ::
              && Reachable(WriteFile, b, [], s) && s.server.sawEnd && s.server.got == b[..n]
              && s.server.log == ServerFrames(WriteFile) + [Typed(AckType)]
    ensures exists t ::
              && A.Reachable(d0, [r.(body := b[..n])], t) && A.CommittedIn(t)
              && A.Content(t.disk, r.target.value) == Some(b[..n])
  {
    var s := AnyPrefixIsAcknowledged(b, n);
    CommittedIsWhole(d0, r.(body := b[..n]));
  }

  lemma CommittedIsWhole(d0: A.Disk, r: A.Request)
    requires A.WellFormed(d0) && r.target.Some? && A.Writable(d0, r)
    ensures exists t ::
              && A.Reachable(d0, [r], t) && A.CommittedIn(t) && A.Content(t.disk, r.target.value) == Some(r.body)
  {
    A.WritableCommits(d0, r);
    var t :| A.Reachable(d0, [r], t) && A.CommittedIn(t);
    var es: seq<A.Event> :| A.Exec(A.Initial(d0, [r]), es) == Some(t);
    hide A.Exec, A.Writable, A.WellFormed, A.Content;
    A.WritesAreAtomic(d0, [r], es, t, 0);
  }
}
