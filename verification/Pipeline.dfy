/** The connection pipeline of an endpoint: connections arrive from the listener
    or a dial loop, are handshaken, registered, queued and served, and leave;
    dial loops wait for the end of the connection they made. */
module Pipeline {
  import opened Wire
  import opened Manager

  type Conn = nat
  /** A place in the configured list of remote addresses; each has its own loop. */
  type Entry = nat

  datatype Joining = Handshaking | Checked | Accepted

  datatype Loop = Sleeping | Dialling | Waiting(conn: Conn) | Ended

  datatype LogEntry = Started(conn: Conn) | ExitHook(conn: Conn) | Notified(conn: Conn)

  /** `incoming` and `nodeQueue` are the two channels, `joining` and `serving` the
      two task sets. A node in `leaving` has run its exit hook and not yet told
      its dial loop. `lost` are the registered nodes a shutdown dropped. */
  datatype State = State(
    next: Conn,
    dialledFor: map<Conn, Entry>,
    ids: map<Conn, NodeId>,
    incoming: seq<Conn>,
    joining: map<Conn, Joining>,
    nodeQueue: seq<Conn>,
    serving: set<Conn>,
    leaving: set<Conn>,
    finished: set<Conn>,
    discarded: set<Conn>,
    lost: set<Conn>,
    registry: map<NodeId, Conn>,
    collecting: bool,
    draining: bool,
    returned: bool,
    loops: map<Entry, Loop>,
    log: seq<LogEntry>)

  function Entries(n: nat): (r: set<Entry>)
    ensures forall a: Entry :: a in r <==> a < n
  {
    if n == 0 then {} else Entries(n - 1) + {n - 1}
  }

  function Initial(config: seq<Text>): State {
    State(0, map[], map[], [], map[], [], {}, {}, {}, {}, {}, map[], true, false, false,
          map a | a in Entries(|config|) :: Sleeping, [])
  }

  datatype Event =
    | Listen                            // the listener hands over a connection
    | StartDial(entry: Entry)
    | DialFails(entry: Entry)
    | DialWorks(entry: Entry)
    | GiveUp(entry: Entry)          // the loop finds its token cancelled
    | HearEnd(entry: Entry)
    | Take
    | Learn(conn: Conn, id: NodeId)     // the handshake tells the peer's id
    | JoinFails(conn: Conn)
    | Accept(conn: Conn)                // on_node_accepted
    | Enqueue(conn: Conn)
    | StopCollecting
    | Serve
    | Exit(conn: Conn)                  // on_node_exited
    | Leave(conn: Conn)
    | StopServing
    | Return

  predicate OfDialling(e: Event) {
    e.Listen? || e.StartDial? || e.DialFails? || e.DialWorks? || e.GiveUp? || e.HearEnd?
  }

  predicate OfJoining(e: Event) {
    e.Take? || e.Learn? || e.JoinFails? || e.Accept? || e.Enqueue? || e.StopCollecting?
  }

  predicate DiallingEnabled(s: State, e: Event)
    requires OfDialling(e)
  {
    match e
    case Listen => !s.returned
    case StartDial(a) => a in s.loops && s.loops[a].Sleeping?
    case DialFails(a) => a in s.loops && s.loops[a].Dialling?
    case DialWorks(a) => a in s.loops && s.loops[a].Dialling?
    case GiveUp(a) => a in s.loops && s.loops[a].Sleeping?
    case HearEnd(a) =>
      a in s.loops && s.loops[a].Waiting? && (s.loops[a].conn in s.finished || s.loops[a].conn in s.discarded)
  }

  predicate JoiningEnabled(s: State, e: Event)
    requires OfJoining(e)
  {
    match e
    case Take => s.collecting && s.incoming != []
    case Learn(c, _) => s.collecting && c in s.joining && s.joining[c].Handshaking?
    case JoinFails(c) => s.collecting && c in s.joining && !s.joining[c].Accepted?
    case Accept(c) => s.collecting && c in s.joining && s.joining[c].Checked? && c in s.ids
    case Enqueue(c) => s.collecting && c in s.joining && s.joining[c].Accepted?
    case StopCollecting => s.collecting
  }

  predicate ServingEnabled(s: State, e: Event)
    requires !OfDialling(e) && !OfJoining(e)
  {
    match e
    case Serve => !s.draining && s.nodeQueue != []
    case Exit(c) => c in s.serving && c in s.ids
    case Leave(c) => c in s.leaving
    case StopServing => !s.collecting && !s.draining && s.nodeQueue == []
    case Return => s.draining && s.serving == {} && s.leaving == {} && !s.returned
  }

  predicate Enabled(s: State, e: Event) {
    if OfDialling(e) then DiallingEnabled(s, e)
    else if OfJoining(e) then JoiningEnabled(s, e)
    else ServingEnabled(s, e)
  }

  /** A new connection goes into the first channel, or nowhere once the pipeline
      has returned and its receiver is gone. */
  function Receive(s: State): State {
    s.(next := s.next + 1,
       incoming := if s.returned then s.incoming else s.incoming + [s.next],
       discarded := if s.returned then s.discarded + {s.next} else s.discarded)
  }

  /** Only the accepting side asks the registry. */
  predicate Refused(s: State, c: Conn, id: NodeId) {
    c !in s.dialledFor && Exists(s.registry, id)
  }

  function Discard(s: State, c: Conn): State {
    s.(joining := s.joining - {c}, discarded := s.discarded + {c})
  }

  function AcceptedIn(joining: map<Conn, Joining>): set<Conn> {
    set c | c in joining && joining[c].Accepted?
  }

  function Elements(queue: seq<Conn>): set<Conn> {
    set c | c in queue
  }

  /** The listener and the dial loops, endpoint.rs:88-127 and 303-341. */
  function Dialling(s: State, e: Event): State
    requires OfDialling(e) && DiallingEnabled(s, e)
  {
    match e
    case Listen => Receive(s)
    case StartDial(a) => s.(loops := s.loops[a := Loop.Dialling])
    case DialFails(a) => s.(loops := s.loops[a := Sleeping])
    case DialWorks(a) =>
      s.(next := s.next + 1,
         incoming := if s.returned then s.incoming else s.incoming + [s.next],
         discarded := if s.returned then s.discarded + {s.next} else s.discarded,
         dialledFor := s.dialledFor[s.next := a],
         loops := s.loops[a := if s.returned then Ended else Waiting(s.next)])
    case GiveUp(a) => s.(loops := s.loops[a := Ended])
    case HearEnd(a) => s.(loops := s.loops[a := if s.loops[a].conn in s.finished then Sleeping else Ended])
  }

  /** The handshake tasks, endpoint.rs:142-180. */
  function Joined(s: State, e: Event): State
    requires OfJoining(e) && JoiningEnabled(s, e)
  {
    match e
    case Take => s.(incoming := s.incoming[1..], joining := s.joining[s.incoming[0] := Handshaking])
    case Learn(c, id) =>
      var refused := Refused(s, c, id);
      s.(joining := if refused then s.joining - {c} else s.joining[c := Checked],
         discarded := if refused then s.discarded + {c} else s.discarded,
         ids := if refused then s.ids else s.ids[c := id])
    case JoinFails(c) => Discard(s, c)
    case Accept(c) => s.(joining := s.joining[c := Accepted], registry := Inserted(s.registry, s.ids[c], c))
    case Enqueue(c) => s.(joining := s.joining - {c}, nodeQueue := s.nodeQueue + [c])
    case StopCollecting =>
      s.(collecting := false, joining := map[], discarded := s.discarded + s.joining.Keys,
         lost := s.lost + AcceptedIn(s.joining))
  }

  /** The serving tasks, endpoint.rs:191-224, and the end of the pipeline. */
  function Served(s: State, e: Event): State
    requires !OfDialling(e) && !OfJoining(e) && ServingEnabled(s, e)
  {
    match e
    case Serve =>
      s.(nodeQueue := s.nodeQueue[1..], serving := s.serving + {s.nodeQueue[0]},
         log := s.log + [Started(s.nodeQueue[0])])
    case Exit(c) =>
      s.(serving := s.serving - {c}, leaving := s.leaving + {c}, registry := Removed(s.registry, s.ids[c]),
         log := s.log + [ExitHook(c)])
    case Leave(c) =>
      s.(leaving := s.leaving - {c}, finished := s.finished + {c},
         log := if c in s.dialledFor then s.log + [Notified(c)] else s.log)
    case StopServing => s.(draining := true)
    case Return => s.(returned := true, incoming := [], discarded := s.discarded + Elements(s.incoming))
  }

  function Apply(s: State, e: Event): State
    requires Enabled(s, e)
  {
    if OfDialling(e) then Dialling(s, e)
    else if OfJoining(e) then Joined(s, e)
    else Served(s, e)
  }

  // ----- what each part leaves alone ---------------------------------------------

  lemma DiallingKeepsService(s: State, e: Event)
    requires Enabled(s, e) && OfDialling(e)
    ensures var t := Apply(s, e);
            t.serving == s.serving && t.leaving == s.leaving && t.finished == s.finished && t.log == s.log
  {
    hide Joined, Served, JoiningEnabled, ServingEnabled;
  }

  lemma DiallingKeepsJoining(s: State, e: Event)
    requires Enabled(s, e) && OfDialling(e)
    ensures var t := Apply(s, e);
            && t.ids == s.ids && t.registry == s.registry && t.joining == s.joining && t.nodeQueue == s.nodeQueue
            && t.lost == s.lost
  {
    hide Joined, Served, JoiningEnabled, ServingEnabled;
  }

  lemma DiallingFrame(s: State, e: Event)
    requires Enabled(s, e) && OfDialling(e)
    ensures var t := Apply(s, e);
            && t.ids == s.ids && t.registry == s.registry && t.joining == s.joining && t.nodeQueue == s.nodeQueue
            && t.serving == s.serving && t.leaving == s.leaving && t.finished == s.finished
            && t.lost == s.lost && t.log == s.log
  {
    hide Apply, Enabled;
    DiallingKeepsService(s, e);
    DiallingKeepsJoining(s, e);
  }

  lemma DiallingGrows(s: State, e: Event)
    requires Enabled(s, e) && OfDialling(e)
    ensures var t := Apply(s, e); s.discarded <= t.discarded && t.loops.Keys == s.loops.Keys && s.next <= t.next
  {
    hide Joined, Served, JoiningEnabled, ServingEnabled;
  }

  lemma JoiningFrame(s: State, e: Event)
    requires Enabled(s, e) && OfJoining(e)
    ensures var t := Apply(s, e);
            && t.next == s.next && t.dialledFor == s.dialledFor && t.loops == s.loops && t.log == s.log
            && t.serving == s.serving && t.leaving == s.leaving && t.finished == s.finished
  {
    hide Dialling, Served, DiallingEnabled, ServingEnabled, Inserted, Exists, AcceptedIn;
  }

  lemma JoiningGrows(s: State, e: Event)
    requires Enabled(s, e) && OfJoining(e)
    ensures s.discarded <= Apply(s, e).discarded && s.lost <= Apply(s, e).lost
  {
    hide Dialling, Served, DiallingEnabled, ServingEnabled, Inserted, Exists, AcceptedIn;
  }

  lemma ServingFrame(s: State, e: Event)
    requires Enabled(s, e) && !OfDialling(e) && !OfJoining(e)
    ensures var t := Apply(s, e);
            && t.next == s.next && t.dialledFor == s.dialledFor && t.loops == s.loops && t.ids == s.ids
            && t.joining == s.joining && t.lost == s.lost && s.discarded <= t.discarded && s.finished <= t.finished
            && (e.StopServing? || e.Return? ==>
                  t.log == s.log && t.serving == s.serving && t.leaving == s.leaving && t.finished == s.finished)
  {
    hide Dialling, Joined, DiallingEnabled, JoiningEnabled, Removed, Elements;
  }

  function Exec(s: State, es: seq<Event>): Option<State>
    decreases |es|
  {
    if es == [] then Some(s)
    else if Enabled(s, es[0]) then Exec(Apply(s, es[0]), es[1..])
    else None
  }

  // ----- conservation -------------------------------------------------------------

  function One(b: bool): nat {
    if b then 1 else 0
  }

  /** In how many places a connection is. */
  function Places(s: State, c: Conn): nat {
    multiset(s.incoming)[c] + One(c in s.joining) + multiset(s.nodeQueue)[c] + One(c in s.serving)
    + One(c in s.leaving) + One(c in s.finished) + One(c in s.discarded)
  }

  /** Every connection received is in exactly one place, and no other is anywhere. */
  ghost predicate Conserved(s: State) {
    forall c: Conn :: Places(s, c) == One(c < s.next)
  }

  lemma PopCount(q: seq<Conn>, c: Conn)
    requires q != []
    ensures multiset(q)[c] == multiset(q[1..])[c] + One(q[0] == c)
  {
    assert q == [q[0]] + q[1..];
  }

  /** The order in which the stages of a shutdown follow each other. */
  ghost predicate Staged(s: State) {
    && (s.returned ==> s.draining && s.incoming == [] && s.serving == {} && s.leaving == {})
    && (s.draining ==> !s.collecting && s.nodeQueue == [])
    && (!s.collecting ==> s.joining == map[])
  }

  lemma StepKeepsStages(s: State, e: Event)
    requires Staged(s) && Enabled(s, e)
    ensures Staged(Apply(s, e))
  {
  }

  predicate SamePlaces(s: State, t: State) {
    && t.next == s.next && t.incoming == s.incoming && t.joining.Keys == s.joining.Keys && t.nodeQueue == s.nodeQueue
    && t.serving == s.serving && t.leaving == s.leaving && t.finished == s.finished && t.discarded == s.discarded
  }

  lemma SamePlacesCount(s: State, t: State, c: Conn)
    requires SamePlaces(s, t)
    ensures Places(t, c) == Places(s, c)
  {
    assert c in t.joining <==> c in t.joining.Keys;
    assert c in s.joining <==> c in s.joining.Keys;
  }

  lemma ReceivePlaces(s: State, c: Conn)
    requires Conserved(s)
    ensures Receive(s).next == s.next + 1 && Places(Receive(s), c) == One(c < s.next + 1)
  {
    assert Places(s, c) == One(c < s.next);
    assert multiset(s.incoming + [s.next])[c] == multiset(s.incoming)[c] + One(c == s.next);
  }

  /** The connection `c` is placed as it should be after the step. */
  ghost predicate Placed(s: State, e: Event, c: Conn)
    requires Enabled(s, e)
  {
    Places(Apply(s, e), c) == One(c < Apply(s, e).next)
  }

  lemma ArrivalPlaces(s: State, e: Event, c: Conn)
    requires Conserved(s) && Enabled(s, e) && (e.Listen? || e.DialWorks?)
    ensures Placed(s, e, c)
  {
    hide Places;
    ReceivePlaces(s, c);
    SamePlacesCount(Receive(s), Apply(s, e), c);
  }

  lemma TakePlaces(s: State, c: Conn)
    requires Conserved(s) && Enabled(s, Take)
    ensures Placed(s, Take, c)
  {
    var h := s.incoming[0];
    PopCount(s.incoming, c);
    PopCount(s.incoming, h);
    assert Places(s, h) == One(h < s.next) && Places(s, c) == One(c < s.next);
  }

  lemma DiscardPlaces(s: State, d: Conn, c: Conn)
    requires Conserved(s) && d in s.joining
    ensures Places(Discard(s, d), c) == One(c < s.next)
  {
    assert Places(s, d) == One(d < s.next) && Places(s, c) == One(c < s.next);
  }

  lemma JoinPlaces(s: State, e: Event, c: Conn)
    requires Conserved(s) && Enabled(s, e) && (e.Learn? || e.JoinFails? || e.Accept?)
    ensures Placed(s, e, c)
  {
    hide Places;
    var t := Apply(s, e);
    if e.JoinFails? || (e.Learn? && Refused(s, e.conn, e.id)) {
      DiscardPlaces(s, e.conn, c);
    } else {
      assert t.joining.Keys == s.joining.Keys;
      SamePlacesCount(s, t, c);
      assert Places(s, c) == One(c < s.next);
    }
  }

  lemma EnqueuePlaces(s: State, d: Conn, c: Conn)
    requires Conserved(s) && Enabled(s, Enqueue(d))
    ensures Placed(s, Enqueue(d), c)
  {
    assert Places(s, c) == One(c < s.next);
    assert multiset(s.nodeQueue + [d])[c] == multiset(s.nodeQueue)[c] + One(c == d);
  }

  lemma ServePlaces(s: State, c: Conn)
    requires Conserved(s) && Enabled(s, Serve)
    ensures Placed(s, Serve, c)
  {
    var h := s.nodeQueue[0];
    PopCount(s.nodeQueue, c);
    PopCount(s.nodeQueue, h);
    assert Places(s, h) == One(h < s.next) && Places(s, c) == One(c < s.next);
  }

  lemma DeparturePlaces(s: State, e: Event, c: Conn)
    requires Conserved(s) && Enabled(s, e) && (e.Exit? || e.Leave?)
    ensures Placed(s, e, c)
  {
    assert Places(s, e.conn) == One(e.conn < s.next) && Places(s, c) == One(c < s.next);
  }

  lemma StopPlaces(s: State, c: Conn)
    requires Conserved(s) && Enabled(s, StopCollecting)
    ensures Placed(s, StopCollecting, c)
  {
    assert Places(s, c) == One(c < s.next);
    assert c in s.joining <==> c in s.joining.Keys;
  }

  lemma ReturnPlaces(s: State, c: Conn)
    requires Conserved(s) && Enabled(s, Return)
    ensures Placed(s, Return, c)
  {
    assert Places(s, c) == One(c < s.next);
    assert c in s.incoming <==> multiset(s.incoming)[c] > 0;
  }

  lemma IdlePlaces(s: State, e: Event, c: Conn)
    requires Conserved(s) && Enabled(s, e)
    requires e.StartDial? || e.DialFails? || e.GiveUp? || e.HearEnd? || e.StopServing?
    ensures Placed(s, e, c)
  {
    hide Places;
    SamePlacesCount(s, Apply(s, e), c);
    assert Places(s, c) == One(c < s.next);
  }

  lemma StepKeepsConserved(s: State, e: Event)
    requires Conserved(s) && Enabled(s, e)
    ensures Conserved(Apply(s, e))
  {
    hide Places, Enabled, Apply;
    forall c: Conn
      ensures Placed(s, e, c)
    {
      match e {
        case Listen => ArrivalPlaces(s, e, c);
        case DialWorks(_) => ArrivalPlaces(s, e, c);
        case Take => TakePlaces(s, c);
        case Learn(_, _) => JoinPlaces(s, e, c);
        case JoinFails(_) => JoinPlaces(s, e, c);
        case Accept(_) => JoinPlaces(s, e, c);
        case Enqueue(d) => EnqueuePlaces(s, d, c);
        case StopCollecting => StopPlaces(s, c);
        case Serve => ServePlaces(s, c);
        case Exit(_) => DeparturePlaces(s, e, c);
        case Leave(_) => DeparturePlaces(s, e, c);
        case Return => ReturnPlaces(s, c);
        case _ => IdlePlaces(s, e, c);
      }
    }
    var t := Apply(s, e);
    forall c: Conn
      ensures Places(t, c) == One(c < t.next)
    {
      assert Placed(s, e, c);
    }
  }

  /** Being in one place excludes every other, and nothing is queued twice. */
  lemma OnePlaceOnly(s: State, c: Conn)
    requires Conserved(s)
    ensures c in s.incoming || c in s.joining || c in s.nodeQueue || c in s.serving || c in s.leaving ||
            c in s.finished || c in s.discarded
            <==> c < s.next
    ensures c in s.incoming ==>
              c !in s.joining && c !in s.nodeQueue && c !in s.serving && c !in s.leaving && c !in s.finished
              && c !in s.discarded
    ensures c in s.joining ==>
              c !in s.nodeQueue && c !in s.serving && c !in s.leaving && c !in s.finished && c !in s.discarded
    ensures c in s.nodeQueue ==> c !in s.serving && c !in s.leaving && c !in s.finished && c !in s.discarded
    ensures c in s.serving ==> c !in s.leaving && c !in s.finished && c !in s.discarded
    ensures c in s.leaving ==> c !in s.finished && c !in s.discarded
    ensures c in s.finished ==> c !in s.discarded
    ensures s.incoming != [] && s.incoming[0] == c ==> c !in s.incoming[1..]
    ensures s.nodeQueue != [] && s.nodeQueue[0] == c ==> c !in s.nodeQueue[1..]
  {
    assert Places(s, c) == One(c < s.next);
    if s.incoming != [] {
      PopCount(s.incoming, c);
    }
    if s.nodeQueue != [] {
      PopCount(s.nodeQueue, c);
    }
    assert c in s.incoming <==> multiset(s.incoming)[c] > 0;
    assert c in s.nodeQueue <==> multiset(s.nodeQueue)[c] > 0;
    assert s.incoming != [] ==> (c in s.incoming[1..] <==> multiset(s.incoming[1..])[c] > 0);
    assert s.nodeQueue != [] ==> (c in s.nodeQueue[1..] <==> multiset(s.nodeQueue[1..])[c] > 0);
  }

  // ----- the registry -------------------------------------------------------------------

  /** Registered, as far as the endpoint knows, and not yet out. */
  predicate AcceptedLive(s: State, c: Conn) {
    (c in s.joining && s.joining[c].Accepted?) || c in s.nodeQueue || c in s.serving
  }

  predicate BetweenCheckAndExit(s: State, c: Conn) {
    (c in s.joining && s.joining[c].Checked?) || AcceptedLive(s, c)
  }

  ghost predicate IdsKnown(s: State) {
    forall c: Conn :: BetweenCheckAndExit(s, c) ==> c in s.ids
  }

  /** Every entry is of a node that was accepted under this id and has not run
      its exit hook, unless a shutdown dropped that node unserved. */
  ghost predicate Sound(s: State) {
    && s.lost <= s.discarded
    && (forall id <- s.registry :: s.registry[id] in s.ids && s.ids[s.registry[id]] == id
                                   && (AcceptedLive(s, s.registry[id]) || s.registry[id] in s.lost))
  }

  /** Every accepted node that has not exited is the one its id leads to. */
  ghost predicate Complete(s: State) {
    forall c: Conn :: AcceptedLive(s, c) && c in s.ids ==> s.ids[c] in s.registry && s.registry[s.ids[c]] == c
  }

  /** No two accepted nodes that have not exited share an id. */
  ghost predicate NoSharedId(s: State) {
    forall c: Conn, d: Conn ::
      AcceptedLive(s, c) && AcceptedLive(s, d) && c in s.ids && d in s.ids && s.ids[c] == s.ids[d] ==> c == d
  }

  /** The stronger condition a caller of the pipeline could keep up: at most one
      connection of each id is between its registry check and its exit. */
  ghost predicate OneAtATime(s: State) {
    forall c: Conn, d: Conn ::
      BetweenCheckAndExit(s, c) && BetweenCheckAndExit(s, d) && c in s.ids && d in s.ids && s.ids[c] == s.ids[d]
      ==> c == d
  }

  /** How a step changes who is live: only its own connection's standing. */
  ghost predicate LiveAfter(s: State, e: Event, c: Conn)
    requires Enabled(s, e)
  {
    var t := Apply(s, e);
    && (AcceptedLive(t, c) <==>
          (AcceptedLive(s, c) && e != Exit(c) && !(e.StopCollecting? && c in s.joining)) || e == Accept(c))
    && (BetweenCheckAndExit(t, c) ==> BetweenCheckAndExit(s, c) || (e.Learn? && e.conn == c))
  }

  lemma TakeLiveness(s: State, c: Conn)
    requires Conserved(s) && Enabled(s, Take)
    ensures LiveAfter(s, Take, c)
  {
    hide Conserved;
    OnePlaceOnly(s, s.incoming[0]);
  }

  lemma EnqueueLiveness(s: State, d: Conn, c: Conn)
    requires Conserved(s) && Enabled(s, Enqueue(d))
    ensures LiveAfter(s, Enqueue(d), c)
  {
    hide Conserved;
    OnePlaceOnly(s, c);
  }

  lemma ServeLiveness(s: State, c: Conn)
    requires Conserved(s) && Enabled(s, Serve)
    ensures LiveAfter(s, Serve, c)
  {
    hide Conserved;
    OnePlaceOnly(s, s.nodeQueue[0]);
    assert s.nodeQueue == [s.nodeQueue[0]] + s.nodeQueue[1..];
  }

  lemma JoinLiveness(s: State, e: Event, c: Conn)
    requires Conserved(s) && Enabled(s, e) && (e.Learn? || e.JoinFails? || e.Accept?)
    ensures LiveAfter(s, e, c)
  {
    hide Conserved, Inserted;
    OnePlaceOnly(s, c);
  }

  lemma DepartureLiveness(s: State, e: Event, c: Conn)
    requires Conserved(s) && Enabled(s, e) && (e.Exit? || e.Leave? || e.StopCollecting?)
    ensures LiveAfter(s, e, c)
  {
    hide Conserved, Removed;
    OnePlaceOnly(s, c);
  }

  lemma StepLiveness(s: State, e: Event, c: Conn)
    requires Conserved(s) && Enabled(s, e)
    ensures LiveAfter(s, e, c)
  {
    hide Conserved;
    if e.Take? {
      TakeLiveness(s, c);
    } else if e.Enqueue? {
      EnqueueLiveness(s, e.conn, c);
    } else if e.Serve? {
      ServeLiveness(s, c);
    } else if e.Learn? || e.JoinFails? || e.Accept? {
      JoinLiveness(s, e, c);
    } else if e.Exit? || e.Leave? || e.StopCollecting? {
      DepartureLiveness(s, e, c);
    }
  }

  lemma IdChangesByLearning(s: State, e: Event, c: Conn)
    requires Enabled(s, e) && c in s.ids && !(e.Learn? && e.conn == c)
    ensures c in Apply(s, e).ids && Apply(s, e).ids[c] == s.ids[c]
  {
    if OfDialling(e) {
      hide Apply, Enabled;
      DiallingFrame(s, e);
    } else if OfJoining(e) {
      hide Dialling, Served, DiallingEnabled, ServingEnabled, Inserted, Exists, AcceptedIn;
    } else {
      hide Apply, Enabled;
      ServingFrame(s, e);
    }
  }

  lemma IdsStay(s: State, e: Event, c: Conn)
    requires Conserved(s) && Enabled(s, e) && BetweenCheckAndExit(s, c) && c in s.ids
    ensures c in Apply(s, e).ids && Apply(s, e).ids[c] == s.ids[c]
  {
    hide Conserved, AcceptedLive, BetweenCheckAndExit, Apply;
    if e.Learn? && e.conn == c {
      NotYetChecked(s, c);
    } else {
      IdChangesByLearning(s, e, c);
    }
  }

  lemma StepKeepsIds(s: State, e: Event)
    requires Conserved(s) && Enabled(s, e) && IdsKnown(s)
    ensures IdsKnown(Apply(s, e))
    ensures forall c :: BetweenCheckAndExit(s, c) ==> c in Apply(s, e).ids && Apply(s, e).ids[c] == s.ids[c]
  {
    var t := Apply(s, e);
    hide Conserved, AcceptedLive, BetweenCheckAndExit, Apply, Enabled;
    forall c | BetweenCheckAndExit(s, c)
      ensures c in t.ids && t.ids[c] == s.ids[c]
    {
      IdsStay(s, e, c);
    }
    forall c | BetweenCheckAndExit(t, c)
      ensures c in t.ids
    {
      if !BetweenCheckAndExit(s, c) {
        OnlyLearnChecks(s, e, c);
        LearnedIsKnown(s, e, c);
      }
    }
  }

  lemma OnlyLearnChecks(s: State, e: Event, c: Conn)
    requires Conserved(s) && Enabled(s, e) && !BetweenCheckAndExit(s, c) && BetweenCheckAndExit(Apply(s, e), c)
    ensures e.Learn? && e.conn == c
  {
    hide Conserved, Apply, Enabled, AcceptedLive, BetweenCheckAndExit;
    StepLiveness(s, e, c);
  }

  lemma NotYetChecked(s: State, c: Conn)
    requires Conserved(s) && c in s.joining && s.joining[c].Handshaking?
    ensures !BetweenCheckAndExit(s, c)
  {
    OnePlaceOnly(s, c);
    hide Conserved;
  }

  lemma LearnedIsKnown(s: State, e: Event, c: Conn)
    requires Conserved(s) && Enabled(s, e) && e.Learn? && e.conn == c && BetweenCheckAndExit(Apply(s, e), c)
    ensures c in Apply(s, e).ids
  {
    OnePlaceOnly(s, c);
    hide Conserved;
  }

  /** The entry of `id`, if there is one, is of a node accepted under it that is
      live, or was lost at shutdown. */
  predicate EntrySound(s: State, id: NodeId) {
    id in s.registry ==>
      var c := s.registry[id];
      c in s.ids && s.ids[c] == id && (AcceptedLive(s, c) || c in s.lost)
  }

  lemma LostAreDiscarded(s: State, e: Event)
    requires s.lost <= s.discarded && Enabled(s, e)
    ensures Apply(s, e).lost <= Apply(s, e).discarded
  {
    hide Inserted, Removed, Exists, Refused;
    if OfDialling(e) {
      hide Joined, Served, JoiningEnabled, ServingEnabled;
    } else if OfJoining(e) {
      hide Dialling, Served, DiallingEnabled, ServingEnabled;
    } else {
      hide Dialling, Joined, DiallingEnabled, JoiningEnabled;
    }
  }

  lemma AcceptedEntry(s: State, c: Conn)
    requires Conserved(s) && IdsKnown(s) && Enabled(s, Accept(c))
    ensures EntrySound(Apply(s, Accept(c)), s.ids[c])
  {
    StepLiveness(s, Accept(c), c);
    hide Conserved, IdsKnown, AcceptedLive;
  }

  lemma LiveEntry(s: State, e: Event, id: NodeId)
    requires Conserved(s) && IdsKnown(s) && Enabled(s, e) && id in s.registry && EntrySound(s, id)
    requires AcceptedLive(s, s.registry[id]) && id in Apply(s, e).registry && Apply(s, e).registry[id] == s.registry[id]
    ensures EntrySound(Apply(s, e), id)
  {
    var c := s.registry[id];
    hide Conserved, IdsKnown, AcceptedLive, BetweenCheckAndExit, Apply, Enabled;
    LiveIsBetween(s, c);
    IdsStay(s, e, c);
    if e == Exit(c) {
      RegistryAfter(s, e, id);
    } else if e.StopCollecting? && c in s.joining {
      LostAtShutdown(s, c);
    } else {
      StaysLive(s, e, c);
    }
  }

  lemma StaysLive(s: State, e: Event, c: Conn)
    requires Conserved(s) && Enabled(s, e) && AcceptedLive(s, c)
    requires e != Exit(c) && !(e.StopCollecting? && c in s.joining)
    ensures AcceptedLive(Apply(s, e), c)
  {
    hide Conserved, AcceptedLive, BetweenCheckAndExit, Apply, Enabled;
    StepLiveness(s, e, c);
  }

  lemma StepKeepsSound(s: State, e: Event)
    requires Conserved(s) && IdsKnown(s) && Sound(s) && Enabled(s, e)
    ensures Sound(Apply(s, e))
  {
    var t := Apply(s, e);
    LostAreDiscarded(s, e);
    hide Conserved, IdsKnown, AcceptedLive, Apply, Enabled;
    forall id <- t.registry
      ensures EntrySound(t, id)
    {
      EntryStaysSound(s, e, id);
    }
  }

  lemma EntryStaysSound(s: State, e: Event, id: NodeId)
    requires Conserved(s) && IdsKnown(s) && Sound(s) && Enabled(s, e) && id in Apply(s, e).registry
    ensures EntrySound(Apply(s, e), id)
  {
    hide Conserved, IdsKnown, AcceptedLive, Apply;
    RegistryAfter(s, e, id);
    if e.Accept? && s.ids[e.conn] == id {
      AcceptedEntry(s, e.conn);
    } else if AcceptedLive(s, s.registry[id]) {
      LiveEntry(s, e, id);
    } else {
      LostStaysNamed(s, e, s.registry[id]);
    }
  }

  lemma LiveIsBetween(s: State, c: Conn)
    requires AcceptedLive(s, c)
    ensures BetweenCheckAndExit(s, c)
  {
  }

  lemma LostAtShutdown(s: State, c: Conn)
    requires Conserved(s) && Enabled(s, StopCollecting) && AcceptedLive(s, c) && c in s.joining
    ensures c in Apply(s, StopCollecting).lost
  {
    OnePlaceOnly(s, c);
    hide Conserved;
  }

  lemma LostStaysNamed(s: State, e: Event, c: Conn)
    requires Conserved(s) && Enabled(s, e) && c in s.lost && s.lost <= s.discarded && c in s.ids
    ensures c in Apply(s, e).lost && c in Apply(s, e).ids && Apply(s, e).ids[c] == s.ids[c]
  {
    hide Conserved, Apply;
    OnePlaceOnly(s, c);
    IdChangesByLearning(s, e, c);
    LostGrows(s, e);
  }

  lemma LostGrows(s: State, e: Event)
    requires Enabled(s, e)
    ensures s.lost <= Apply(s, e).lost
  {
    hide Apply, Enabled;
    if OfDialling(e) {
      DiallingFrame(s, e);
      DiallingGrows(s, e);
    } else if OfJoining(e) {
      JoiningFrame(s, e);
      JoiningGrows(s, e);
    } else {
      ServingFrame(s, e);
    }
  }

  /** What a step does to the registry. */
  lemma RegistryAfter(s: State, e: Event, id: NodeId)
    requires Enabled(s, e)
    ensures var t := Apply(s, e);
            id in t.registry ==>
              && (if e.Accept? && s.ids[e.conn] == id then t.registry[id] == e.conn
                  else id in s.registry && t.registry[id] == s.registry[id])
              && (e.Exit? ==> s.ids[e.conn] != id)
  {
  }

  lemma StepKeepsComplete(s: State, e: Event)
    requires Conserved(s) && IdsKnown(s) && Complete(s) && NoSharedId(s) && Enabled(s, e) && NoSharedId(Apply(s, e))
    ensures Complete(Apply(s, e))
  {
    var t := Apply(s, e);
    StepKeepsIds(s, e);
    hide Conserved, AcceptedLive, BetweenCheckAndExit;
    forall c: Conn | AcceptedLive(t, c) && c in t.ids
      ensures t.ids[c] in t.registry && t.registry[t.ids[c]] == c
    {
      StepLiveness(s, e, c);
      if e != Accept(c) {
        LiveIsBetween(s, c);
        StaysRegistered(s, e, c);
      }
    }
  }

  lemma ServedIsLive(s: State, c: Conn)
    requires c in s.serving
    ensures AcceptedLive(s, c)
  {
  }

  /** A registered live node keeps its entry unless another of its id is accepted or exits. */
  lemma StaysRegistered(s: State, e: Event, c: Conn)
    requires Conserved(s) && IdsKnown(s) && Enabled(s, e) && NoSharedId(s) && NoSharedId(Apply(s, e))
    requires AcceptedLive(s, c) && AcceptedLive(Apply(s, e), c) && e != Accept(c) && e != Exit(c)
    requires c in s.ids && c in Apply(s, e).ids && Apply(s, e).ids[c] == s.ids[c]
    requires s.ids[c] in s.registry && s.registry[s.ids[c]] == c
    ensures s.ids[c] in Apply(s, e).registry && Apply(s, e).registry[s.ids[c]] == c
  {
    hide Conserved, IdsKnown, AcceptedLive, Apply;
    if e.Accept? {
      StepLiveness(s, e, e.conn);
      KeepsIds(s, e);
      assert s.ids[e.conn] != s.ids[c];
    } else if e.Exit? {
      ServedIsLive(s, e.conn);
      assert s.ids[e.conn] != s.ids[c];
    }
    OtherEntryStays(s, e, s.ids[c]);
  }

  lemma KeepsIds(s: State, e: Event)
    requires Enabled(s, e) && !e.Learn?
    ensures Apply(s, e).ids == s.ids
  {
    if OfDialling(e) {
      hide Apply, Enabled;
      DiallingFrame(s, e);
    } else if OfJoining(e) {
      hide Dialling, Served, DiallingEnabled, ServingEnabled, Inserted, Exists, AcceptedIn;
    } else {
      hide Apply, Enabled;
      ServingFrame(s, e);
    }
  }

  lemma OtherEntryStays(s: State, e: Event, id: NodeId)
    requires Enabled(s, e) && id in s.registry && ((e.Accept? || e.Exit?) && e.conn in s.ids ==> s.ids[e.conn] != id)
    ensures id in Apply(s, e).registry && Apply(s, e).registry[id] == s.registry[id]
  {
    hide Elements, AcceptedIn;
  }

  // ----- what each served node goes through ---------------------------------------------

  /** The entries of a log that are about one connection, in order. */
  function Story(log: seq<LogEntry>, c: Conn): seq<LogEntry> {
    if log == [] then []
    else
      var before := Story(log[..|log| - 1], c);
      if log[|log| - 1].conn == c then before + [log[|log| - 1]] else before
  }

  lemma StoryGrows(log: seq<LogEntry>, entry: LogEntry, c: Conn)
    ensures Story(log + [entry], c) == if entry.conn == c then Story(log, c) + [entry] else Story(log, c)
  {
    assert (log + [entry])[..|log|] == log;
  }

  /** The story a connection has by the place it is in. */
  function Told(s: State, c: Conn): seq<LogEntry> {
    if c in s.serving then [Started(c)]
    else if c in s.leaving then [Started(c), ExitHook(c)]
    else if c in s.finished then [Started(c), ExitHook(c)] + if c in s.dialledFor then [Notified(c)] else []
    else []
  }

  ghost predicate Stories(s: State) {
    forall c: Conn :: Story(s.log, c) == Told(s, c)
  }

  lemma QuietKeepsEnds(s: State, e: Event)
    requires Enabled(s, e) && !e.Serve? && !e.Exit? && !e.Leave?
    ensures var t := Apply(s, e);
            t.log == s.log && t.serving == s.serving && t.leaving == s.leaving && t.finished == s.finished
  {
    hide Apply, Enabled;
    if OfDialling(e) {
      DiallingFrame(s, e);
    } else if OfJoining(e) {
      JoiningFrame(s, e);
    } else {
      ServingFrame(s, e);
    }
  }

  lemma DialledStays(s: State, e: Event, c: Conn)
    requires Enabled(s, e) && c != s.next
    ensures c in Apply(s, e).dialledFor <==> c in s.dialledFor
    ensures c in s.dialledFor ==> Apply(s, e).dialledFor[c] == s.dialledFor[c]
  {
    if OfDialling(e) {
      hide Joined, Served, JoiningEnabled, ServingEnabled;
    } else if OfJoining(e) {
      hide Apply, Enabled;
      JoiningFrame(s, e);
    } else {
      hide Apply, Enabled;
      ServingFrame(s, e);
    }
  }

  lemma QuietStory(s: State, e: Event, c: Conn)
    requires Conserved(s) && Stories(s) && Enabled(s, e) && !e.Serve? && !e.Exit? && !e.Leave?
    ensures Story(Apply(s, e).log, c) == Told(Apply(s, e), c)
  {
    hide Story, Conserved, Apply, Enabled;
    OnePlaceOnly(s, c);
    QuietKeepsEnds(s, e);
    if c != s.next {
      DialledStays(s, e, c);
    }
  }

  lemma ActiveStory(s: State, e: Event, c: Conn)
    requires Conserved(s) && Stories(s) && Enabled(s, e) && (e.Serve? || e.Exit? || e.Leave?)
    ensures Story(Apply(s, e).log, c) == Told(Apply(s, e), c)
  {
    hide Story, Conserved, Dialling, Joined, DiallingEnabled, JoiningEnabled, Removed;
    OnePlaceOnly(s, c);
    if e.Serve? {
      StoryGrows(s.log, Started(s.nodeQueue[0]), c);
    } else if e.Exit? {
      StoryGrows(s.log, ExitHook(e.conn), c);
    } else {
      StoryGrows(s.log, Notified(e.conn), c);
    }
  }

  lemma StepKeepsStories(s: State, e: Event)
    requires Conserved(s) && Stories(s) && Enabled(s, e)
    ensures Stories(Apply(s, e))
  {
    hide Story, Conserved, Told, Apply, Enabled;
    forall c: Conn
      ensures Story(Apply(s, e).log, c) == Told(Apply(s, e), c)
    {
      if e.Serve? || e.Exit? || e.Leave? {
        ActiveStory(s, e, c);
      } else {
        QuietStory(s, e, c);
      }
    }
  }

  // ----- dial loops ------------------------------------------------------------------------

  /** Where the loop that dialled `c` can stand. */
  predicate Followed(s: State, c: Conn)
    requires c in s.dialledFor && s.dialledFor[c] in s.loops
  {
    var l := s.loops[s.dialledFor[c]];
    c in s.finished || l == Waiting(c) || (c in s.discarded && l.Ended?)
  }

  ghost predicate Dials(s: State) {
    forall c <- s.dialledFor :: c < s.next && s.dialledFor[c] in s.loops && Followed(s, c)
  }

  /** Finished and discarded connections stay so. */
  lemma EndsAreFinal(s: State, e: Event)
    requires Enabled(s, e)
    ensures s.finished <= Apply(s, e).finished && s.discarded <= Apply(s, e).discarded
    ensures s.loops.Keys == Apply(s, e).loops.Keys && s.next <= Apply(s, e).next
  {
    hide Apply, Enabled;
    if OfDialling(e) {
      DiallingFrame(s, e);
      DiallingGrows(s, e);
    } else if OfJoining(e) {
      JoiningFrame(s, e);
      JoiningGrows(s, e);
    } else {
      ServingFrame(s, e);
    }
  }

  lemma DialledBy(s: State, e: Event, c: Conn)
    requires Enabled(s, e) && c in Apply(s, e).dialledFor
    ensures c in s.dialledFor || (e.DialWorks? && c == s.next)
  {
    if OfDialling(e) {
      hide Joined, Served, JoiningEnabled, ServingEnabled;
    } else if OfJoining(e) {
      hide Apply, Enabled;
      JoiningFrame(s, e);
    } else {
      hide Apply, Enabled;
      ServingFrame(s, e);
    }
  }

  lemma StepKeepsDials(s: State, e: Event)
    requires Dials(s) && Enabled(s, e)
    ensures Dials(Apply(s, e))
  {
    var t := Apply(s, e);
    EndsAreFinal(s, e);
    hide Apply, Enabled;
    forall c <- t.dialledFor
      ensures c < t.next && t.dialledFor[c] in t.loops && Followed(t, c)
    {
      DialledBy(s, e, c);
      if c in s.dialledFor {
        LoopFollows(s, e, c);
      } else {
        DialIsFollowed(s, e.entry);
      }
    }
  }

  lemma LoopFollows(s: State, e: Event, c: Conn)
    requires Enabled(s, e) && c in s.dialledFor && s.dialledFor[c] in s.loops && Followed(s, c) && c < s.next
    ensures c in Apply(s, e).dialledFor && Apply(s, e).dialledFor[c] == s.dialledFor[c]
    ensures s.dialledFor[c] in Apply(s, e).loops && Followed(Apply(s, e), c)
  {
    hide Apply, Enabled;
    DialledStays(s, e, c);
    EndsAreFinal(s, e);
    assert s.dialledFor[c] in s.loops.Keys;
    if c !in s.finished {
      LoopStands(s, e, c);
    }
  }

  /** The loop of an unfinished connection moves only when it hears the end. */
  lemma LoopStands(s: State, e: Event, c: Conn)
    requires Enabled(s, e) && c in s.dialledFor && s.dialledFor[c] in s.loops && Followed(s, c) && c !in s.finished
    ensures s.dialledFor[c] in Apply(s, e).loops
    ensures var l := Apply(s, e).loops[s.dialledFor[c]];
            l == s.loops[s.dialledFor[c]] || (l.Ended? && c in s.discarded)
  {
    if OfDialling(e) {
      hide Joined, Served, JoiningEnabled, ServingEnabled;
    } else if OfJoining(e) {
      hide Apply, Enabled;
      JoiningFrame(s, e);
    } else {
      hide Apply, Enabled;
      ServingFrame(s, e);
    }
  }

  lemma DialIsFollowed(s: State, a: Entry)
    requires Enabled(s, DialWorks(a))
    ensures var t := Apply(s, DialWorks(a));
            s.next < t.next && s.next in t.dialledFor && t.dialledFor[s.next] in t.loops && Followed(t, s.next)
  {
  }

  // ----- all runs ----------------------------------------------------------------------------

  ghost predicate Inv(s: State) {
    Conserved(s) && Staged(s) && IdsKnown(s) && Sound(s) && Stories(s) && Dials(s)
  }

  lemma InitialInv(config: seq<Text>)
    ensures Inv(Initial(config)) && Complete(Initial(config))
  {
  }

  lemma StepKeepsInv(s: State, e: Event)
    requires Inv(s) && Enabled(s, e)
    ensures Inv(Apply(s, e))
  {
    hide Conserved, Staged, IdsKnown, Sound, Stories, Dials, Apply, Enabled;
    StepKeepsConserved(s, e);
    StepKeepsStages(s, e);
    StepKeepsIds(s, e);
    StepKeepsSound(s, e);
    StepKeepsStories(s, e);
    StepKeepsDials(s, e);
  }

  lemma {:induction false} RunKeepsInv(s: State, es: seq<Event>)
    requires Inv(s) && Exec(s, es).Some?
    ensures Inv(Exec(s, es).value)
    decreases |es|
  {
    hide Inv, Apply, Enabled;
    if es != [] {
      StepKeepsInv(s, es[0]);
      RunKeepsInv(Apply(s, es[0]), es[1..]);
    }
  }

  ghost predicate Reachable(config: seq<Text>, s: State) {
    exists es: seq<Event> :: Exec(Initial(config), es) == Some(s)
  }

  lemma ReachableInv(config: seq<Text>, s: State)
    requires Reachable(config, s)
    ensures Inv(s)
  {
    var es: seq<Event> :| Exec(Initial(config), es) == Some(s);
    hide Inv, Apply, Enabled, Initial;
    InitialInv(config);
    RunKeepsInv(Initial(config), es);
  }

  /** In every reachable state each connection received is in exactly one of the
      channel, the handshakes, the node queue, service, leaving, finished and
      discarded, with multiplicity; no other connection is anywhere. */
  lemma ConnectionsAreConserved(config: seq<Text>, s: State, c: Conn)
    requires Reachable(config, s)
    ensures Places(s, c) == if c < s.next then 1 else 0
  {
    ReachableInv(config, s);
    hide Places;
  }

  /** Each connection's story is a prefix of start, exit hook, notification; the
      exit hook of a node that began to be served ran exactly once when it is no
      longer served, and only dialled connections are notified. */
  lemma HooksRunOnceInOrder(config: seq<Text>, s: State, c: Conn)
    requires Reachable(config, s)
    ensures Story(s.log, c) <= [Started(c), ExitHook(c), Notified(c)]
    ensures Started(c) in Story(s.log, c) && c !in s.serving <==> ExitHook(c) in Story(s.log, c)
    ensures Notified(c) in Story(s.log, c) <==> c in s.finished && c in s.dialledFor
    ensures Story(s.log, c) != [] <==> c in s.serving || c in s.leaving || c in s.finished
  {
    ReachableInv(config, s);
    hide Story, Conserved, IdsKnown, Sound, Dials, Staged;
    OnePlaceOnly(s, c);
    assert Story(s.log, c) == Told(s, c);
  }

  /** When the pipeline has returned, every node that began to be served has run
      its exit hook and told its dial loop, and nothing is left half way. */
  lemma ReturnsWhenDrained(config: seq<Text>, s: State, c: Conn)
    requires Reachable(config, s) && s.returned && c < s.next
    ensures c in s.finished || c in s.discarded
    ensures Started(c) in Story(s.log, c) <==> ExitHook(c) in Story(s.log, c)
    ensures Started(c) in Story(s.log, c) && c in s.dialledFor <==> Notified(c) in Story(s.log, c)
  {
    ReachableInv(config, s);
    HooksRunOnceInOrder(config, s, c);
    hide Story, Conserved, IdsKnown, Sound, Dials;
    OnePlaceOnly(s, c);
    assert Story(s.log, c) == Told(s, c);
  }

  /** Every registered handle is of a node accepted under that id whose exit
      hook has not run, unless a shutdown dropped the node unserved; then the
      entry is stale for good. */
  lemma RegistryIsSound(config: seq<Text>, s: State, id: NodeId)
    requires Reachable(config, s) && id in s.registry
    ensures s.registry[id] in s.ids && s.ids[s.registry[id]] == id
    ensures ExitHook(s.registry[id]) !in Story(s.log, s.registry[id])
    ensures !(s.registry[id] in s.lost) ==> AcceptedLive(s, s.registry[id])
  {
    ReachableInv(config, s);
    var c := s.registry[id];
    HooksRunOnceInOrder(config, s, c);
    hide Story, Conserved, IdsKnown, Dials, Staged;
    OnePlaceOnly(s, c);
  }

  ghost predicate AlwaysComplete(s: State, es: seq<Event>)
    decreases |es|
  {
    Complete(s) && (es != [] && Enabled(s, es[0]) ==> AlwaysComplete(Apply(s, es[0]), es[1..]))
  }

  ghost predicate NeverShared(s: State, es: seq<Event>)
    decreases |es|
  {
    NoSharedId(s) && (es != [] && Enabled(s, es[0]) ==> NeverShared(Apply(s, es[0]), es[1..]))
  }

  lemma CompleteNeedsOwnIds(s: State)
    requires IdsKnown(s) && Complete(s)
    ensures NoSharedId(s)
  {
  }

  /** The registry leads to every accepted live node throughout a run exactly
      when no two accepted live nodes ever share an id. */
  lemma {:induction false} CompleteIffNeverShared(s: State, es: seq<Event>)
    requires Inv(s) && Complete(s) && Exec(s, es).Some?
    ensures AlwaysComplete(s, es) <==> NeverShared(s, es)
    decreases |es|
  {
    hide Conserved, Staged, Sound, Stories, Dials, Apply, Enabled, AcceptedLive, BetweenCheckAndExit;
    CompleteNeedsOwnIds(s);
    if es != [] {
      var t := Apply(s, es[0]);
      StepKeepsInv(s, es[0]);
      if NoSharedId(t) {
        StepKeepsComplete(s, es[0]);
        CompleteIffNeverShared(t, es[1..]);
      } else if Complete(t) {
        CompleteNeedsOwnIds(t);
      }
    }
  }

  ghost predicate AlwaysOneAtATime(s: State, es: seq<Event>)
    decreases |es|
  {
    OneAtATime(s) && (es != [] && Enabled(s, es[0]) ==> AlwaysOneAtATime(Apply(s, es[0]), es[1..]))
  }

  /** What a caller of the pipeline can see to is enough. */
  lemma {:induction false} OneAtATimeNeverShares(s: State, es: seq<Event>)
    requires Exec(s, es).Some? && AlwaysOneAtATime(s, es)
    ensures NeverShared(s, es)
    decreases |es|
  {
    hide Apply, Enabled, AcceptedLive;
    forall c: Conn, d: Conn |
      AcceptedLive(s, c) && AcceptedLive(s, d) && c in s.ids && d in s.ids && s.ids[c] == s.ids[d]
      ensures c == d
    {
      LiveIsBetween(s, c);
      LiveIsBetween(s, d);
    }
    if es != [] {
      OneAtATimeNeverShares(Apply(s, es[0]), es[1..]);
    }
  }

  lemma {:induction false} CompleteAtEnd(s: State, es: seq<Event>)
    requires Exec(s, es).Some? && AlwaysComplete(s, es)
    ensures Complete(Exec(s, es).value)
    decreases |es|
  {
    if es != [] {
      CompleteAtEnd(Apply(s, es[0]), es[1..]);
    }
  }

  /** The accepted live nodes, by id. */
  ghost predicate Exact(s: State) {
    forall id: NodeId, c: Conn ::
      (id in s.registry && s.registry[id] == c) <==> (AcceptedLive(s, c) && c in s.ids && s.ids[c] == id)
  }

  /** Without shared ids and without a shutdown that drops an accepted node, the
      registry is the map of accepted live nodes. */
  lemma RegistryIsExact(config: seq<Text>, es: seq<Event>)
    requires Exec(Initial(config), es).Some? && NeverShared(Initial(config), es)
    requires Exec(Initial(config), es).value.lost == {}
    ensures Exact(Exec(Initial(config), es).value)
  {
    var s := Exec(Initial(config), es).value;
    hide Apply, Enabled, Initial, AcceptedLive, BetweenCheckAndExit, NeverShared, AlwaysComplete;
    InitialInv(config);
    RunKeepsInv(Initial(config), es);
    CompleteIffNeverShared(Initial(config), es);
    CompleteAtEnd(Initial(config), es);
    hide Conserved, Staged, IdsKnown, Stories, Dials;
  }

  // ----- what the dial loops keep ---------------------------------------------------------------

  predicate Outstanding(s: State, c: Conn) {
    c in s.dialledFor && c !in s.finished && c !in s.discarded
  }

  /** Each entry of the configured list has at most one connection outstanding, and
      it is the one its loop waits for. */
  lemma OneConnectionPerEntry(config: seq<Text>, s: State, c: Conn, d: Conn)
    requires Reachable(config, s) && Outstanding(s, c) && Outstanding(s, d) && s.dialledFor[c] == s.dialledFor[d]
    ensures c == d && s.dialledFor[c] < |config| && s.dialledFor[c] in s.loops
    ensures s.loops[s.dialledFor[c]] == Waiting(c)
  {
    ReachableInv(config, s);
    EntriesAreListed(config, s, s.dialledFor[c]);
    hide Conserved, Staged, IdsKnown, Sound, Stories;
    assert Followed(s, c) && Followed(s, d);
  }

  lemma {:induction false} RunKeepsLoops(s: State, es: seq<Event>)
    requires Exec(s, es).Some?
    ensures Exec(s, es).value.loops.Keys == s.loops.Keys
    decreases |es|
  {
    hide Apply, Enabled;
    if es != [] {
      EndsAreFinal(s, es[0]);
      RunKeepsLoops(Apply(s, es[0]), es[1..]);
    }
  }

  lemma EntriesAreListed(config: seq<Text>, s: State, a: Entry)
    requires Reachable(config, s)
    ensures a in s.loops <==> a < |config|
  {
    var es: seq<Event> :| Exec(Initial(config), es) == Some(s);
    RunKeepsLoops(Initial(config), es);
    assert a in s.loops <==> a in s.loops.Keys;
    assert a in Initial(config).loops <==> a in Initial(config).loops.Keys;
  }

  predicate SameAddress(config: seq<Text>, a: Entry, b: Entry) {
    a < |config| && b < |config| && config[a] == config[b]
  }

  ghost predicate OneEach(config: seq<Text>, s: State) {
    forall c: Conn, d: Conn ::
      Outstanding(s, c) && Outstanding(s, d) && SameAddress(config, s.dialledFor[c], s.dialledFor[d]) ==> c == d
  }

  predicate NoneTwice(config: seq<Text>) {
    forall i, j :: 0 <= i < j < |config| ==> config[i] != config[j]
  }

  /** So each address has at most one connection outstanding, in every reachable
      state, if and only if none is configured twice. */
  lemma OneConnectionPerAddressIff(config: seq<Text>)
    ensures (forall s :: Reachable(config, s) ==> OneEach(config, s)) <==> NoneTwice(config)
  {
    if NoneTwice(config) {
      forall s | Reachable(config, s)
        ensures OneEach(config, s)
      {
        forall c: Conn, d: Conn |
          Outstanding(s, c) && Outstanding(s, d) && SameAddress(config, s.dialledFor[c], s.dialledFor[d])
          ensures c == d
        {
          assert s.dialledFor[c] == s.dialledFor[d];
          OneConnectionPerEntry(config, s, c, d);
        }
      }
    } else {
      var i, j :| 0 <= i < j < |config| && config[i] == config[j];
      var s := BothDialled(config, i, j);
      assert Outstanding(s, 0) && Outstanding(s, 1);
      assert !OneEach(config, s);
    }
  }

  lemma DialOut(config: seq<Text>, s: State, a: Entry) returns (t: State)
    requires Reachable(config, s) && a in s.loops && s.loops[a].Sleeping? && !s.returned
    ensures Reachable(config, t) && !t.returned && t.dialledFor == s.dialledFor[s.next := a] && t.next == s.next + 1
    ensures t.finished == s.finished && t.discarded == s.discarded && t.loops == s.loops[a := Waiting(s.next)]
    ensures t == s.(next := s.next + 1, dialledFor := s.dialledFor[s.next := a], incoming := s.incoming + [s.next],
                    loops := s.loops[a := Waiting(s.next)])
  {
    hide Reachable;
    ReachStep(config, s, StartDial(a));
    var s1 := Apply(s, StartDial(a));
    ReachStep(config, s1, DialWorks(a));
    t := Apply(s1, DialWorks(a));
    assert t.loops == s.loops[a := Waiting(s.next)];
  }

  lemma BothDialled(config: seq<Text>, i: nat, j: nat) returns (s: State)
    requires i < j < |config|
    ensures Reachable(config, s) && s.dialledFor == map[0 := i, 1 := j] && s.finished == {} && s.discarded == {}
  {
    var s0 := Initial(config);
    assert Exec(s0, []) == Some(s0);
    hide Reachable;
    var s1 := DialOut(config, s0, i);
    s := DialOut(config, s1, j);
  }

  /** The loop of an entry dials only when every connection it made before was
      served to its end and has told it so. */
  lemma RedialsOnlyAfterExit(config: seq<Text>, s: State, c: Conn)
    requires Reachable(config, s) && c in s.dialledFor
    requires Enabled(s, StartDial(s.dialledFor[c])) || Enabled(s, DialWorks(s.dialledFor[c]))
    ensures c in s.finished && Notified(c) in Story(s.log, c)
  {
    ReachableInv(config, s);
    HooksRunOnceInOrder(config, s, c);
    hide Conserved, Staged, IdsKnown, Sound, Stories, Story;
    assert Followed(s, c);
  }

  lemma {:induction false} RunKeepsDiscarded(s: State, es: seq<Event>)
    requires Inv(s) && Exec(s, es).Some?
    ensures s.discarded <= Exec(s, es).value.discarded
    ensures forall c <- s.dialledFor ::
              c in Exec(s, es).value.dialledFor && Exec(s, es).value.dialledFor[c] == s.dialledFor[c]
    decreases |es|
  {
    hide Apply, Enabled, Conserved, Staged, IdsKnown, Sound, Stories;
    if es != [] {
      var t := Apply(s, es[0]);
      EndsAreFinal(s, es[0]);
      forall c <- s.dialledFor
        ensures c in t.dialledFor && t.dialledFor[c] == s.dialledFor[c]
      {
        LoopFollows(s, es[0], c);
      }
      StepKeepsInv(s, es[0]);
      RunKeepsDiscarded(t, es[1..]);
    }
  }

  /** A dialled connection that is dropped without being served, by a failed
      handshake for one, ends the loop of its entry for good: in no continuation
      does that loop dial again. */
  lemma DroppedNoticeEndsLoop(config: seq<Text>, s: State, c: Conn, es: seq<Event>)
    requires Reachable(config, s) && c in s.dialledFor && c in s.discarded && Exec(s, es).Some?
    ensures var t := Exec(s, es).value;
            && !Enabled(t, StartDial(s.dialledFor[c])) && !Enabled(t, DialWorks(s.dialledFor[c]))
            && !Enabled(t, DialFails(s.dialledFor[c]))
  {
    ReachableInv(config, s);
    var t := Exec(s, es).value;
    RunKeepsInv(s, es);
    RunKeepsDiscarded(s, es);
    assert Followed(t, c);
    OnePlaceOnly(t, c);
  }

  // ----- why the registry needs distinct ids -------------------------------------------------------

  lemma {:induction false} Extend(s: State, es: seq<Event>, e: Event)
    requires Exec(s, es).Some? && Enabled(Exec(s, es).value, e)
    ensures Exec(s, es + [e]) == Some(Apply(Exec(s, es).value, e))
    decreases |es|
  {
    if es == [] {
      assert es + [e] == [e];
      assert [e][1..] == [];
    } else {
      Extend(Apply(s, es[0]), es[1..], e);
      assert (es + [e])[1..] == es[1..] + [e];
    }
  }

  lemma ReachStep(config: seq<Text>, s: State, e: Event)
    requires Reachable(config, s) && Enabled(s, e)
    ensures Reachable(config, Apply(s, e))
  {
    var es: seq<Event> :| Exec(Initial(config), es) == Some(s);
    hide Apply, Enabled, Initial;
    Extend(Initial(config), es, e);
  }

  /** An endpoint at work that has lost nothing and serves nobody yet. */
  predicate Fresh(s: State) {
    && s.collecting && !s.draining && !s.returned && s.lost == {} && s.discarded == {} && s.finished == {}
    && s.nodeQueue == [] && s.serving == {} && s.leaving == {}
  }

  lemma TwoArrive() returns (s: State)
    ensures Reachable([], s) && Fresh(s) && s.incoming == [] && s.next == 2 && s.registry == map[]
    ensures s.joining == map[0 := Handshaking, 1 := Handshaking] && s.ids == map[] && s.dialledFor == map[]
  {
    var s0 := Initial([]);
    assert Exec(s0, []) == Some(s0);
    hide Reachable;
    ReachStep([], s0, Listen);
    var s1 := Apply(s0, Listen);
    ReachStep([], s1, Listen);
    var s2 := Apply(s1, Listen);
    ReachStep([], s2, Take);
    var s3 := Apply(s2, Take);
    assert s3.incoming == [1];
    ReachStep([], s3, Take);
    s := Apply(s3, Take);
  }

  /** Two incoming connections of one peer are both checked before either is
      registered, so both pass. */
  lemma BothPassTheCheck(id: NodeId) returns (s: State)
    ensures Reachable([], s) && Fresh(s) && s.registry == map[]
    ensures s.joining == map[0 := Checked, 1 := Checked] && s.ids == map[0 := id, 1 := id] && s.dialledFor == map[]
  {
    var s0 := TwoArrive();
    hide Reachable;
    ReachStep([], s0, Learn(0, id));
    var s1 := Apply(s0, Learn(0, id));
    assert s1.joining == map[0 := Checked, 1 := Handshaking];
    ReachStep([], s1, Learn(1, id));
    s := Apply(s1, Learn(1, id));
  }

  lemma BothAreAccepted(id: NodeId) returns (s: State)
    ensures Reachable([], s) && Fresh(s) && s.registry == map[id := 1]
    ensures s.joining == map[0 := Accepted, 1 := Accepted] && s.ids == map[0 := id, 1 := id] && s.dialledFor == map[]
  {
    var s2 := BothPassTheCheck(id);
    hide Reachable;
    ReachStep([], s2, Accept(0));
    var s3 := Apply(s2, Accept(0));
    ReachStep([], s3, Accept(1));
    s := Apply(s3, Accept(1));
  }

  /** Without any shutdown, the exit of the first of two such nodes takes the
      entry of the second, which is still served: its handle cannot be found. */
  lemma RaceUnregistersLiveNode(id: NodeId) returns (s: State)
    ensures Reachable([], s) && s.lost == {} && s.collecting
    ensures 1 in s.serving && 1 in s.ids && s.ids[1] == id && !Exists(s.registry, id)
  {
    var s0 := BothAreAccepted(id);
    hide Reachable;
    ReachStep([], s0, Enqueue(0));
    var s1 := Apply(s0, Enqueue(0));
    ReachStep([], s1, Enqueue(1));
    var s2 := Apply(s1, Enqueue(1));
    assert s2.nodeQueue == [0, 1];
    ReachStep([], s2, Serve);
    var s3 := Apply(s2, Serve);
    assert s3.nodeQueue == [1];
    ReachStep([], s3, Serve);
    var s4 := Apply(s3, Serve);
    ReachStep([], s4, Exit(0));
    s := Apply(s4, Exit(0));
  }

  lemma OneArrives(a: Text) returns (s: State)
    ensures Reachable([a], s) && Fresh(s) && s.registry == map[] && s.incoming == [] && s.next == 1
    ensures s.joining == map[0 := Handshaking] && s.ids == map[] && s.dialledFor == map[]
            && s.loops == map[0 := Sleeping]
  {
    var s0 := Initial([a]);
    assert Exec(s0, []) == Some(s0);
    assert s0.loops == map[0 := Sleeping];
    hide Reachable;
    ReachStep([a], s0, Listen);
    var s1 := Apply(s0, Listen);
    ReachStep([a], s1, Take);
    s := Apply(s1, Take);
  }

  lemma ListenedIsRegistered(a: Text, id: NodeId) returns (s: State)
    ensures Reachable([a], s) && Fresh(s) && s.registry == map[id := 0] && s.incoming == [] && s.next == 1
    ensures s.joining == map[0 := Accepted] && s.ids == map[0 := id] && s.dialledFor == map[]
            && s.loops == map[0 := Sleeping]
  {
    var s2 := OneArrives(a);
    hide Reachable;
    ReachStep([a], s2, Learn(0, id));
    var s3 := Apply(s2, Learn(0, id));
    ReachStep([a], s3, Accept(0));
    s := Apply(s3, Accept(0));
  }

  lemma DialArrives(a: Text, id: NodeId) returns (s: State)
    ensures Reachable([a], s) && Fresh(s) && s.registry == map[id := 0] && s.incoming == [1] && s.next == 2
    ensures s.joining == map[0 := Accepted] && s.ids == map[0 := id] && s.dialledFor == map[1 := 0]
  {
    var s0 := ListenedIsRegistered(a, id);
    hide Reachable;
    ReachStep([a], s0, StartDial(0));
    var s1 := Apply(s0, StartDial(0));
    ReachStep([a], s1, DialWorks(0));
    s := Apply(s1, DialWorks(0));
  }

  lemma DialledIsTaken(a: Text, id: NodeId) returns (s: State)
    ensures Reachable([a], s) && Fresh(s) && s.registry == map[id := 0] && s.dialledFor == map[1 := 0]
    ensures s.joining == map[0 := Accepted, 1 := Handshaking] && s.ids == map[0 := id]
  {
    var s0 := DialArrives(a, id);
    hide Reachable;
    ReachStep([a], s0, Take);
    s := Apply(s0, Take);
  }

  /** No race is needed when this endpoint dials: the dialling side does not ask
      the registry, so a peer already registered is registered over. */
  lemma DialDisplacesRegisteredNode(a: Text, id: NodeId) returns (s: State)
    ensures Reachable([a], s) && s.lost == {} && s.collecting
    ensures AcceptedLive(s, 0) && AcceptedLive(s, 1) && s.ids == map[0 := id, 1 := id] && s.registry == map[id := 1]
  {
    var s3 := DialledIsTaken(a, id);
    hide Reachable;
    ReachStep([a], s3, Learn(1, id));
    var s4 := Apply(s3, Learn(1, id));
    ReachStep([a], s4, Accept(1));
    s := Apply(s4, Accept(1));
  }

  // ----- what the registry check does, and how an entry can be taken over ---------------------

  /** A listened connection of a peer that is registered is dropped, and the registry
      stays as it is; every other connection passes, under the id it told. */
  lemma KnownPeersAreRefused(s: State, c: Conn, id: NodeId)
    requires Enabled(s, Learn(c, id))
    ensures var t := Apply(s, Learn(c, id));
            && t.registry == s.registry
            && (if c !in s.dialledFor && id in s.registry
                then c !in t.joining && c in t.discarded
                else c in t.joining && t.joining[c].Checked? && c in t.ids && t.ids[c] == id
                     && t.discarded == s.discarded)
  {
  }

  lemma {:induction false} LastStep(s: State, es: seq<Event>) returns (m: State)
    requires Exec(s, es).Some? && es != []
    ensures Exec(s, es[..|es| - 1]) == Some(m) && Enabled(m, es[|es| - 1])
    ensures Exec(s, es) == Some(Apply(m, es[|es| - 1]))
    decreases |es|
  {
    hide Apply, Enabled;
    if |es| == 1 {
      m := s;
      assert es[1..] == [];
    } else {
      var rest := es[1..];
      m := LastStep(Apply(s, es[0]), rest);
      assert es[..|es| - 1][1..] == rest[..|rest| - 1];
    }
  }

  lemma CheckedBefore(s: State, e: Event, c: Conn)
    requires Enabled(s, e) && c in Apply(s, e).joining && Apply(s, e).joining[c].Checked? && c in Apply(s, e).ids
    ensures e == Learn(c, Apply(s, e).ids[c]) ||
            (c in s.joining && s.joining[c].Checked? && c in s.ids && s.ids[c] == Apply(s, e).ids[c])
  {
    if OfDialling(e) {
      hide Apply, Enabled;
      DiallingFrame(s, e);
    } else if OfJoining(e) {
      hide Dialling, Served, DiallingEnabled, ServingEnabled, Inserted, Exists, AcceptedIn;
    } else {
      hide Apply, Enabled;
      ServingFrame(s, e);
    }
  }

  lemma {:induction false} CheckedWasLearned(config: seq<Text>, es: seq<Event>, s: State, c: Conn)
    requires Exec(Initial(config), es) == Some(s) && c in s.joining && s.joining[c].Checked? && c in s.ids
    ensures exists i :: 0 <= i < |es| && es[i] == Learn(c, s.ids[c])
    decreases |es|
  {
    if es != [] {
      var n := |es| - 1;
      var m := LastStep(Initial(config), es);
      hide Apply, Enabled, Exec, Initial;
      CheckedBefore(m, es[n], c);
      if es[n] != Learn(c, s.ids[c]) {
        CheckedWasLearned(config, es[..n], m, c);
        var i :| 0 <= i < n && es[..n][i] == Learn(c, s.ids[c]);
        assert es[i] == Learn(c, s.ids[c]);
      }
    }
  }

  lemma {:induction false} EntryCameAfterCheck(config: seq<Text>, es: seq<Event>, s: State, c: Conn)
    requires Exec(Initial(config), es) == Some(s) && c in s.joining && s.joining[c].Checked? && c in s.ids
    requires c !in s.dialledFor && s.ids[c] in s.registry
    ensures exists i, j :: 0 <= i < j < |es| && es[i] == Learn(c, s.ids[c]) && es[j] == Accept(s.registry[s.ids[c]])
    decreases |es|
  {
    if es != [] {
      var n := |es| - 1;
      var e := es[n];
      var m := LastStep(Initial(config), es);
      var id := s.ids[c];
      var d := s.registry[id];
      hide Exec, Initial;
      CheckedBefore(m, e, c);
      RegistryAfter(m, e, id);
      StillNotDialled(m, e, c);
      if e == Learn(c, id) {
        KnownPeersAreRefused(m, c, id);
        assert false;
      }
      hide Apply, Enabled;
      if e == Accept(d) {
        CheckedWasLearned(config, es[..n], m, c);
        var i :| 0 <= i < n && es[..n][i] == Learn(c, id);
        assert es[i] == Learn(c, id) && es[n] == Accept(d);
      } else {
        EntryCameAfterCheck(config, es[..n], m, c);
        var i, j :| 0 <= i < j < n && es[..n][i] == Learn(c, id) && es[..n][j] == Accept(d);
        assert es[i] == Learn(c, id) && es[j] == Accept(d);
      }
    }
  }

  lemma StillNotDialled(s: State, e: Event, c: Conn)
    requires Enabled(s, e) && c !in Apply(s, e).dialledFor
    ensures c !in s.dialledFor
  {
    if OfDialling(e) {
      hide Joined, Served, JoiningEnabled, ServingEnabled;
    } else if OfJoining(e) {
      hide Apply, Enabled;
      JoiningFrame(s, e);
    } else {
      hide Apply, Enabled;
      ServingFrame(s, e);
    }
  }

  /** In every run an entry is about to be taken over only by a connection this
      endpoint dialled, or by one whose check came before the node it displaces was
      accepted: there is no third way. */
  lemma TakeoverNeedsDialOrRace(config: seq<Text>, es: seq<Event>, s: State, c: Conn)
    requires Exec(Initial(config), es) == Some(s) && Enabled(s, Accept(c)) && s.ids[c] in s.registry
    ensures c in s.dialledFor ||
            exists i, j :: 0 <= i < j < |es| && es[i] == Learn(c, s.ids[c]) && es[j] == Accept(s.registry[s.ids[c]])
  {
    if c !in s.dialledFor {
      EntryCameAfterCheck(config, es, s, c);
    }
  }

  // ----- loops go on -----------------------------------------------------------------------------

  lemma LoopEnding(s: State, e: Event, a: Entry)
    requires Dials(s) && Enabled(s, e) && a in Apply(s, e).loops && Apply(s, e).loops[a].Ended?
    ensures a in s.loops
    ensures s.loops[a].Ended? || e == GiveUp(a)
            || (e == HearEnd(a) && s.loops[a].Waiting? && s.loops[a].conn in s.discarded)
            || (e == DialWorks(a) && s.next in Apply(s, e).discarded && Apply(s, e).dialledFor[s.next] == a)
  {
    if OfDialling(e) {
      hide Joined, Served, JoiningEnabled, ServingEnabled;
    } else if OfJoining(e) {
      hide Apply, Enabled;
      JoiningFrame(s, e);
    } else {
      hide Apply, Enabled;
      ServingFrame(s, e);
    }
  }

  ghost predicate Dropped(s: State, a: Entry) {
    exists c <- s.dialledFor :: s.dialledFor[c] == a && c in s.discarded
  }

  lemma DroppedStays(s: State, e: Event, a: Entry)
    requires Dials(s) && Enabled(s, e) && Dropped(s, a)
    ensures Dropped(Apply(s, e), a)
  {
    var c :| c in s.dialledFor && s.dialledFor[c] == a && c in s.discarded;
    hide Apply, Enabled;
    DialledStays(s, e, c);
    EndsAreFinal(s, e);
  }

  /** The connection a loop waits for is one it dialled. */
  ghost predicate WaitsForOwn(s: State) {
    forall a <- s.loops :: s.loops[a].Waiting? ==> s.loops[a].conn in s.dialledFor && s.dialledFor[s.loops[a].conn] == a
  }

  lemma StepWaitsForOwn(s: State, e: Event)
    requires Dials(s) && WaitsForOwn(s) && Enabled(s, e)
    ensures WaitsForOwn(Apply(s, e))
  {
    if OfDialling(e) {
      hide Joined, Served, JoiningEnabled, ServingEnabled;
    } else if OfJoining(e) {
      hide Apply, Enabled;
      JoiningFrame(s, e);
    } else {
      hide Apply, Enabled;
      ServingFrame(s, e);
    }
  }

  lemma {:induction false} RunEndsLoop(s: State, es: seq<Event>, t: State, a: Entry)
    requires Inv(s) && WaitsForOwn(s) && Exec(s, es) == Some(t) && a in t.loops && t.loops[a].Ended?
    requires a in s.loops ==> !s.loops[a].Ended? || Dropped(s, a)
    ensures GiveUp(a) in es || Dropped(t, a)
    decreases |es|
  {
    hide Conserved, Staged, IdsKnown, Sound, Stories;
    if es != [] {
      var e := es[0];
      var m := Apply(s, e);
      StepKeepsInv(s, e);
      StepWaitsForOwn(s, e);
      assert es == [e] + es[1..];
      if Dropped(s, a) {
        DroppedStays(s, e, a);
      }
      if e != GiveUp(a) {
        if a in m.loops && m.loops[a].Ended? {
          LoopEnding(s, e, a);
          if e == HearEnd(a) && s.loops[a].Waiting? {
            assert s.loops[a].conn in s.dialledFor && s.dialledFor[s.loops[a].conn] == a;
            if s.loops[a].conn in s.discarded {
              assert Dropped(s, a);
              DroppedStays(s, e, a);
            }
          }
        }
        hide Apply, Enabled, Dials, Dropped, WaitsForOwn;
        RunEndsLoop(m, es[1..], t, a);
      }
    }
  }

  /** A dial loop ends only by a cancellation it saw, or because a connection it made
      was dropped unserved. */
  lemma LoopsEndOnlyTwoWays(config: seq<Text>, es: seq<Event>, s: State, a: Entry)
    requires Exec(Initial(config), es) == Some(s) && a in s.loops && s.loops[a].Ended?
    ensures GiveUp(a) in es || Dropped(s, a)
  {
    InitialInv(config);
    RunEndsLoop(Initial(config), es, s, a);
  }

  lemma EndedStep(s: State, e: Event, a: Entry)
    requires Enabled(s, e) && a in s.loops && s.loops[a].Ended?
    ensures a in Apply(s, e).loops && Apply(s, e).loops[a].Ended?
  {
    if OfDialling(e) {
      hide Joined, Served, JoiningEnabled, ServingEnabled;
    } else if OfJoining(e) {
      hide Apply, Enabled;
      JoiningFrame(s, e);
    } else {
      hide Apply, Enabled;
      ServingFrame(s, e);
    }
  }

  lemma {:induction false} EndedRun(s: State, es: seq<Event>, t: State, a: Entry)
    requires Exec(s, es) == Some(t) && a in s.loops && s.loops[a].Ended?
    ensures a in t.loops && t.loops[a].Ended?
    decreases |es|
  {
    hide Apply, Enabled;
    if es != [] {
      EndedStep(s, es[0], a);
      EndedRun(Apply(s, es[0]), es[1..], t, a);
    }
  }

  /** Whenever a loop could dial it can find itself cancelled instead, and then never
      dials again. */
  lemma GivenUpForGood(s: State, a: Entry)
    requires Enabled(s, StartDial(a))
    ensures Enabled(s, GiveUp(a))
    ensures forall es: seq<Event> | Exec(Apply(s, GiveUp(a)), es).Some? ::
              var t := Exec(Apply(s, GiveUp(a)), es).value;
              !Enabled(t, StartDial(a)) && !Enabled(t, DialWorks(a)) && !Enabled(t, DialFails(a))
  {
    var m := Apply(s, GiveUp(a));
    forall es: seq<Event> | Exec(m, es).Some?
      ensures var t := Exec(m, es).value;
              !Enabled(t, StartDial(a)) && !Enabled(t, DialWorks(a)) && !Enabled(t, DialFails(a))
    {
      EndedRun(m, es, Exec(m, es).value, a);
    }
  }

  /** A dial that works after the pipeline has returned is its loop's last. */
  lemma DialAfterReturnIsLast(s: State, a: Entry)
    requires Enabled(s, DialWorks(a)) && s.returned
    ensures forall es: seq<Event> | Exec(Apply(s, DialWorks(a)), es).Some? ::
              var t := Exec(Apply(s, DialWorks(a)), es).value;
              !Enabled(t, StartDial(a)) && !Enabled(t, DialWorks(a)) && !Enabled(t, DialFails(a))
  {
    var m := Apply(s, DialWorks(a));
    forall es: seq<Event> | Exec(m, es).Some?
      ensures var t := Exec(m, es).value;
              !Enabled(t, StartDial(a)) && !Enabled(t, DialWorks(a)) && !Enabled(t, DialFails(a))
    {
      EndedRun(m, es, Exec(m, es).value, a);
    }
  }

  /** A dial that fails is tried again: the loop is where it was before it. */
  lemma FailedDialIsRetried(s: State, a: Entry)
    requires Enabled(s, StartDial(a))
    ensures Enabled(Apply(s, StartDial(a)), DialFails(a))
    ensures Apply(Apply(s, StartDial(a)), DialFails(a)) == s
  {
    var t := Apply(Apply(s, StartDial(a)), DialFails(a));
    assert t.loops == s.loops;
  }

  // ----- a failed handshake ------------------------------------------------------------------------

  lemma {:induction false} RunKeepsDiscardedSet(s: State, es: seq<Event>, t: State)
    requires Exec(s, es) == Some(t)
    ensures s.discarded <= t.discarded
    decreases |es|
  {
    hide Apply, Enabled;
    if es != [] {
      EndsAreFinal(s, es[0]);
      RunKeepsDiscardedSet(Apply(s, es[0]), es[1..], t);
    }
  }

  lemma NotLostStep(s: State, e: Event, c: Conn)
    requires Conserved(s) && Enabled(s, e) && c in s.discarded && c !in s.lost
    ensures c !in Apply(s, e).lost
  {
    OnePlaceOnly(s, c);
    hide Conserved;
    if OfDialling(e) {
      hide Apply, Enabled;
      DiallingFrame(s, e);
    } else if OfJoining(e) {
      hide Dialling, Served, DiallingEnabled, ServingEnabled, Inserted, Exists;
    } else {
      hide Apply, Enabled;
      ServingFrame(s, e);
    }
  }

  lemma {:induction false} NotLostRun(s: State, es: seq<Event>, t: State, c: Conn)
    requires Inv(s) && Exec(s, es) == Some(t) && c in s.discarded && c !in s.lost
    ensures c !in t.lost
    decreases |es|
  {
    hide Apply, Enabled, Staged, IdsKnown, Sound, Stories, Dials;
    if es != [] {
      NotLostStep(s, es[0], c);
      EndsAreFinal(s, es[0]);
      StepKeepsInv(s, es[0]);
      NotLostRun(Apply(s, es[0]), es[1..], t, c);
    }
  }

  lemma StaysForgotten(config: seq<Text>, s: State, c: Conn, es: seq<Event>, t: State)
    requires Reachable(config, s) && Enabled(s, JoinFails(c)) && Exec(Apply(s, JoinFails(c)), es) == Some(t)
    ensures Story(t.log, c) == [] && c !in t.serving && c !in t.joining
    ensures Apply(s, JoinFails(c)).registry == s.registry
    ensures forall id <- t.registry :: t.registry[id] != c
  {
    var m := Apply(s, JoinFails(c));
    ReachableInv(config, s);
    StepKeepsInv(s, JoinFails(c));
    RunKeepsInv(m, es);
    OnePlaceOnly(s, c);
    assert c in m.discarded && c !in m.lost;
    RunKeepsDiscardedSet(m, es, t);
    NotLostRun(m, es, t, c);
    OnePlaceOnly(t, c);
    assert Story(t.log, c) == Told(t, c);
    hide Conserved, Staged, IdsKnown, Dials, Stories, Exec, Story;
  }

  /** As long as handshakes run, each can fail up to the moment its node is accepted;
      its connection is then never served and never registered, in any continuation,
      and it takes nobody's entry with it. */
  lemma FailedHandshakeIsForgotten(config: seq<Text>, s: State, c: Conn)
    requires Reachable(config, s) && s.collecting && c in s.joining && !s.joining[c].Accepted?
    ensures Enabled(s, JoinFails(c)) && Apply(s, JoinFails(c)).registry == s.registry
    ensures forall es: seq<Event> | Exec(Apply(s, JoinFails(c)), es).Some? ::
              var t := Exec(Apply(s, JoinFails(c)), es).value;
              && Story(t.log, c) == [] && c !in t.serving && c !in t.joining
              && forall id <- t.registry :: t.registry[id] != c
  {
    assert Enabled(s, JoinFails(c)) && Apply(s, JoinFails(c)).registry == s.registry;
    hide Reachable, Apply, Enabled, Exec, Story;
    var m := Apply(s, JoinFails(c));
    forall es: seq<Event> | Exec(m, es).Some?
      ensures var t := Exec(m, es).value;
              && Story(t.log, c) == [] && c !in t.serving && c !in t.joining
              && forall id <- t.registry :: t.registry[id] != c
    {
      StaysForgotten(config, s, c, es, Exec(m, es).value);
    }
  }

  // ----- an address can be dialled and served again and again ---------------------------------------

  /** `n` connections made for entry `a` have been served to their end and nothing else
      has happened. */
  predicate AllServed(s: State, config: seq<Text>, a: Entry, id: NodeId, n: nat) {
    && s.next == n && s.dialledFor == (map c | c in Entries(n) :: a) && s.ids == (map c | c in Entries(n) :: id)
    && s.incoming == [] && s.joining == map[] && s.nodeQueue == [] && s.serving == {} && s.leaving == {}
    && s.finished == Entries(n) && s.discarded == {} && s.lost == {} && s.registry == map[]
    && s.collecting && !s.draining && !s.returned && s.loops == Initial(config).loops
  }

  lemma IsChecked(config: seq<Text>, s: State, c: Conn, id: NodeId) returns (t: State)
    requires Reachable(config, s) && s.incoming == [c] && s.joining == map[] && s.collecting && c in s.dialledFor
    ensures Reachable(config, t)
    ensures t == s.(incoming := [], joining := map[c := Checked], ids := s.ids[c := id])
  {
    hide Reachable;
    ReachStep(config, s, Take);
    var s1 := Apply(s, Take);
    assert s1 == s.(incoming := [], joining := map[c := Handshaking]);
    ReachStep(config, s1, Learn(c, id));
    t := Apply(s1, Learn(c, id));
    assert t.joining == map[c := Checked];
  }

  /** An arrived connection is handshaken and accepted. */
  lemma Joins(config: seq<Text>, s: State, c: Conn, id: NodeId) returns (t: State)
    requires Reachable(config, s) && s.incoming == [c] && s.joining == map[] && s.collecting && c in s.dialledFor
    ensures Reachable(config, t)
    ensures t == s.(incoming := [], joining := map[c := Accepted], ids := s.ids[c := id],
                    registry := s.registry[id := c])
  {
    hide Reachable;
    var s2 := IsChecked(config, s, c, id);
    ReachStep(config, s2, Accept(c));
    t := Apply(s2, Accept(c));
    assert t.joining == map[c := Accepted];
  }

  /** An accepted one is queued and served. */
  lemma IsServed(config: seq<Text>, s: State, c: Conn) returns (t: State)
    requires Reachable(config, s) && s.joining == map[c := Accepted] && s.nodeQueue == [] && s.collecting && !s.draining
    ensures Reachable(config, t)
    ensures t == s.(joining := map[], serving := s.serving + {c}, log := s.log + [Started(c)])
  {
    hide Reachable;
    ReachStep(config, s, Enqueue(c));
    var s1 := Apply(s, Enqueue(c));
    assert s1 == s.(joining := map[], nodeQueue := [c]);
    ReachStep(config, s1, Serve);
    t := Apply(s1, Serve);
  }

  /** A served one exits, and its loop hears of it. */
  lemma IsOver(config: seq<Text>, s: State, c: Conn, a: Entry) returns (t: State)
    requires Reachable(config, s) && s.serving == {c} && s.leaving == {} && c in s.ids && c in s.dialledFor
    requires a in s.loops && s.loops[a] == Waiting(c) && c !in s.discarded
    ensures Reachable(config, t)
    ensures t == s.(serving := {}, finished := s.finished + {c}, registry := s.registry - {s.ids[c]},
                    loops := s.loops[a := Sleeping], log := s.log + [ExitHook(c), Notified(c)])
  {
    hide Reachable;
    ReachStep(config, s, Exit(c));
    var s1 := Apply(s, Exit(c));
    assert s1 == s.(serving := {}, leaving := {c}, registry := s.registry - {s.ids[c]}, log := s.log + [ExitHook(c)]);
    ReachStep(config, s1, Leave(c));
    var s2 := Apply(s1, Leave(c));
    assert s2 == s1.(leaving := {}, finished := s.finished + {c}, log := s1.log + [Notified(c)]);
    ReachStep(config, s2, HearEnd(a));
    t := Apply(s2, HearEnd(a));
    assert t.log == s.log + [ExitHook(c), Notified(c)];
  }

  lemma OneMoreDial(config: seq<Text>, s0: State, a: Entry, id: NodeId, c: Conn) returns (s: State)
    requires a < |config| && Reachable(config, s0) && AllServed(s0, config, a, id, c)
    ensures Reachable(config, s) && AllServed(s, config, a, id, c + 1)
  {
    hide Reachable, Apply, Enabled;
    var s1 := DialOut(config, s0, a);
    assert s1.incoming == [c];
    var s2 := Joins(config, s1, c, id);
    var s3 := IsServed(config, s2, c);
    assert s3.serving == {c};
    s := IsOver(config, s3, c, a);
    assert s.loops == s0.loops;
    assert Entries(c + 1) == Entries(c) + {c};
    assert s.registry == map[];
  }

  /** Every entry can be dialled, handshaken, registered, served to its end and dialled
      again any number of times. */
  lemma {:induction false} AnyNumberOfDials(config: seq<Text>, a: Entry, id: NodeId, n: nat) returns (s: State)
    requires a < |config|
    ensures Reachable(config, s) && AllServed(s, config, a, id, n)
    decreases n
  {
    if n == 0 {
      s := Initial(config);
      assert Exec(s, []) == Some(s);
    } else {
      var s0 := AnyNumberOfDials(config, a, id, n - 1);
      hide Reachable, AllServed;
      s := OneMoreDial(config, s0, a, id, n - 1);
    }
  }

  // ----- the pipeline can always be brought to its end ------------------------------------------------

  /** `t` comes after `s` in some run, and the invariant holds of it. */
  ghost predicate Later(s: State, t: State) {
    Inv(t) && exists es: seq<Event> :: Exec(s, es) == Some(t)
  }

  lemma LaterStep(s: State, m: State, e: Event) returns (t: State)
    requires Later(s, m) && Enabled(m, e)
    ensures t == Apply(m, e) && Later(s, t)
  {
    t := Apply(m, e);
    var es: seq<Event> :| Exec(s, es) == Some(m);
    StepKeepsInv(m, e);
    hide Inv, Apply, Enabled;
    Extend(s, es, e);
  }

  lemma {:induction false} ServesQueue(s: State, m: State) returns (t: State)
    requires Later(s, m) && !m.collecting
    ensures Later(s, t) && !t.collecting && t.nodeQueue == [] && t.draining == m.draining && t.returned == m.returned
    decreases |m.nodeQueue|
  {
    if m.nodeQueue == [] || m.draining {
      t := m;
    } else {
      hide Inv;
      var n := LaterStep(s, m, Serve);
      t := ServesQueue(s, n);
    }
  }

  lemma LiveHasId(s: State, c: Conn)
    requires Inv(s) && c in s.serving
    ensures c in s.ids
  {
    assert AcceptedLive(s, c);
    assert BetweenCheckAndExit(s, c);
    hide Conserved, Staged, Sound, Stories, Dials;
  }

  lemma {:induction false} ExitsAll(s: State, m: State) returns (t: State)
    requires Later(s, m) && m.draining
    ensures Later(s, t) && t.draining && t.serving == {} && t.returned == m.returned
    decreases |m.serving|
  {
    if m.serving == {} {
      t := m;
    } else {
      var c :| c in m.serving;
      LiveHasId(m, c);
      hide Inv;
      var n := LaterStep(s, m, Exit(c));
      t := ExitsAll(s, n);
    }
  }

  lemma {:induction false} LeavesAll(s: State, m: State) returns (t: State)
    requires Later(s, m) && m.draining && m.serving == {}
    ensures Later(s, t) && t.draining && t.serving == {} && t.leaving == {} && t.returned == m.returned
    decreases |m.leaving|
  {
    if m.leaving == {} {
      t := m;
    } else {
      var c :| c in m.leaving;
      hide Inv;
      var n := LaterStep(s, m, Leave(c));
      t := LeavesAll(s, n);
    }
  }

  lemma StopsCollecting(s: State, m: State) returns (t: State)
    requires Later(s, m)
    ensures Later(s, t) && !t.collecting
  {
    hide Later;
    t := m;
    if t.collecting {
      t := LaterStep(s, t, StopCollecting);
    }
  }

  lemma StopsServing(s: State, m: State) returns (t: State)
    requires Later(s, m) && !m.collecting && m.nodeQueue == []
    ensures Later(s, t) && t.draining
  {
    hide Later;
    t := m;
    if !t.draining {
      t := LaterStep(s, t, StopServing);
    }
  }

  lemma Returns(s: State, m: State) returns (t: State)
    requires Later(s, m) && m.draining && m.serving == {} && m.leaving == {}
    ensures Later(s, t) && t.returned
  {
    hide Later;
    t := m;
    if !t.returned {
      t := LaterStep(s, t, Return);
    }
  }

  /** From every reachable state the pipeline can be brought to its return. */
  lemma CanAlwaysReturn(config: seq<Text>, s: State) returns (t: State)
    requires Reachable(config, s)
    ensures Later(s, t) && t.returned
  {
    ReachableInv(config, s);
    assert Exec(s, []) == Some(s);
    hide Inv, Exec;
    t := StopsCollecting(s, s);
    hide Later;
    t := ServesQueue(s, t);
    t := StopsServing(s, t);
    t := ExitsAll(s, t);
    t := LeavesAll(s, t);
    t := Returns(s, t);
  }
}
