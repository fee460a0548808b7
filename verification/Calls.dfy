/** One node and its callers: calls wait to be queued, are queued, started, run
    and answered, while the node beats, stops and is dropped. */
module Calls {
  import opened Wire

  type Call = nat

  const NODE_ALREADY_EXIT: u32 := 20
  const QUEUE_CAPACITY := 10

  /** `exec`, `exec_ack` and `spawn`. */
  datatype Kind = Job | Staged | Spawned

  /** What a running task is about to do. */
  datatype Pc = Opening | Writing | Acking | Replying | Deciding | Executing

  /** How its next operation turns out. */
  datatype Turn = Works(v: nat) | Breaks(error: CrabError)

  /** The oneshot on which a caller waits; a spawned task has none. */
  datatype Channel = Absent | Open | Sent(reply: Result<nat>) | Closed

  /** Where the tasks are: blocked in `send`, in the queue, in the join set, out
      of it, dropped with the queue, or refused by a closed queue. */
  datatype Flow = Flow(
    next: Call,
    sending: set<Call>,
    queue: seq<Call>,
    running: map<Call, Pc>,
    completed: set<Call>,
    dropped: set<Call>,
    refused: set<Call>)

  datatype NodeStatus = Ready | Running | Stopping | Stopped

  /** The watched status: `history` holds every value it ever had, `notices` counts
      how often its watchers were woken. */
  class StatusCell {
    var status: NodeStatus
    var notices: nat
    ghost var history: seq<NodeStatus>

    ghost predicate Valid()
      reads this
    {
      history != [] && history[|history| - 1] == status && notices == |history| - 1
    }

    constructor ()
      ensures Valid() && history == [Ready]
    {
      status, notices, history := Ready, 0, [Ready];
    }

    /** Setting the value it already has wakes nobody. */
    method SetStatus(next: NodeStatus)
      requires Valid()
      modifies this
      ensures Valid() && status == next
      ensures history == old(history) + if old(status) == next then [] else [next]
    {
      if status != next {
        status := next;
        notices := notices + 1;
        history := history + [next];
      }
    }
  }

  datatype Phase = Unserved | FirstBeat | Beating | Joining | Failed | Done

  datatype Part = NotStarted | Active | Draining | Ended

  /** `history` holds every value the status ever had. */
  datatype Life = Life(
    phase: Phase,
    tasks: Part,
    streams: Part,
    cancelled: bool,
    handlesGone: bool,
    gone: bool,
    history: seq<NodeStatus>)

  datatype Book = Book(
    kinds: map<Call, Kind>,
    channels: map<Call, Channel>,
    starts: multiset<Call>,
    sends: multiset<Call>,
    acked: set<Call>)

  datatype State = State(flow: Flow, life: Life, book: Book)

  const NEW_NODE: State :=
    State(Flow(0, {}, [], map[], {}, {}, {}),
          Life(Unserved, NotStarted, NotStarted, false, false, false, [Ready]),
          Book(map[], map[], multiset{}, multiset{}, {}))

  datatype Event =
    | Begin
    | FirstBeatWorks
    | FirstBeatFails
    | Cancel                      // of the node's token, from above
    | DropHandles
    | BeatEnds                    // a beat failed, or the loop saw the token cancelled
    | StreamsEnd
    | TasksBreak                  // `serve_all_tasks` leaves its loop and drops the queue
    | TasksEnd
    | Finish
    | Drop                        // the node itself goes
    | Submit(kind: Kind)
    | Push(call: Call)
    | Refuse(call: Call)
    | Dequeue
    | Turns(call: Call, turn: Turn)

  predicate OfLife(e: Event) {
    !e.Submit? && !e.Push? && !e.Refuse? && !e.Dequeue? && !e.Turns?
  }

  /** The receiving half of the queue exists. */
  predicate QueueOpen(l: Life) {
    (l.tasks.NotStarted? && !l.gone) || l.tasks.Active?
  }

  predicate LifeEnabled(l: Life, f: Flow, e: Event)
    requires OfLife(e)
  {
    match e
    case Begin => l.phase.Unserved? && !l.gone
    case FirstBeatWorks => l.phase.FirstBeat?
    case FirstBeatFails => l.phase.FirstBeat?
    case Cancel => true
    case DropHandles => f.sending == {}
    case BeatEnds => l.phase.Beating?
    case StreamsEnd => l.streams.Active? && l.cancelled
    case TasksBreak => l.tasks.Active? && (l.cancelled || (l.handlesGone && f.queue == []))
    case TasksEnd => l.tasks.Draining? && f.running == map[]
    case Finish => l.phase.Joining? && l.tasks.Ended? && l.streams.Ended?
    case Drop => (l.phase.Unserved? || l.phase.Failed? || l.phase.Done?) && !l.gone
  }

  predicate OnRecord(b: Book, c: Call) {
    c in b.kinds && c in b.channels
  }

  predicate FlowEnabled(l: Life, f: Flow, b: Book, e: Event)
    requires !OfLife(e)
  {
    match e
    case Submit(_) => !l.handlesGone
    case Push(c) => c in f.sending && QueueOpen(l) && |f.queue| < QUEUE_CAPACITY
    case Refuse(c) => c in f.sending && !QueueOpen(l) && OnRecord(b, c)
    case Dequeue => l.tasks.Active? && f.queue != []
    case Turns(c, _) => c in f.running && OnRecord(b, c)
  }

  predicate Enabled(s: State, e: Event) {
    if OfLife(e) then LifeEnabled(s.life, s.flow, e) else FlowEnabled(s.life, s.flow, s.book, e)
  }

  function NextLife(l: Life, e: Event): Life {
    match e
    case Begin => l.(phase := FirstBeat)
    case FirstBeatWorks => l.(phase := Beating, tasks := Active, streams := Active, history := l.history + [Running])
    case FirstBeatFails => l.(phase := Failed)
    case Cancel => l.(cancelled := true)
    case DropHandles => l.(handlesGone := true)
    case BeatEnds => l.(phase := Joining, cancelled := true, history := l.history + [Stopping])
    case StreamsEnd => l.(streams := Ended)
    case TasksBreak => l.(tasks := Draining)
    case TasksEnd => l.(tasks := Ended)
    case Finish => l.(phase := Done, history := l.history + [Stopped])
    case Drop => l.(gone := true)
    case _ => l
  }

  /** The step of a task of kind `k`: where it goes, if it goes on, and what it
      sends on its channel. */
  function Advance(k: Kind, pc: Pc, turn: Turn): (r: (Option<Pc>, Option<Result<nat>>)) {
    match pc
    case Opening => if turn.Works? then (Some(Writing), None) else (None, None)
    case Writing =>
      if turn.Works? then (Some(Acking), None)
      else (None, if k.Staged? then Some(Err(turn.error)) else None)
    case Acking =>
      if turn.Works? then (Some(if k.Staged? then Replying else Executing), None)
      else (None, if k.Spawned? then None else Some(Err(turn.error)))
    case Replying => if turn.Works? then (Some(Deciding), Some(Ok(turn.v))) else (None, Some(Err(turn.error)))
    case Deciding => (if turn.Works? then Some(Executing) else None, None)
    case Executing => (None, if k.Job? then Some(if turn.Works? then Ok(turn.v) else Err(turn.error)) else None)
  }

  /** The queue goes with its receiver. */
  predicate DropsQueue(l: Life, e: Event) {
    e.TasksBreak? || (e.Drop? && l.tasks.NotStarted?)
  }

  function NextFlow(l: Life, f: Flow, b: Book, e: Event): Flow
    requires !OfLife(e) ==> FlowEnabled(l, f, b, e)
  {
    match e
    case Submit(_) => f.(next := f.next + 1, sending := f.sending + {f.next})
    case Push(c) => f.(sending := f.sending - {c}, queue := f.queue + [c])
    case Refuse(c) => f.(sending := f.sending - {c}, refused := f.refused + {c})
    case Dequeue => f.(queue := f.queue[1..], running := f.running[f.queue[0] := Opening])
    case Turns(c, turn) =>
      var a := Advance(b.kinds[c], f.running[c], turn);
      f.(running := if a.0.Some? then f.running[c := a.0.value] else f.running - {c},
         completed := if a.0.Some? then f.completed else f.completed + {c})
    case _ =>
      f.(queue := if DropsQueue(l, e) then [] else f.queue,
         dropped := if DropsQueue(l, e) then f.dropped + Elements(f.queue) else f.dropped)
  }

  function Elements(queue: seq<Call>): set<Call> {
    set c | c in queue
  }

  /** Dropping the sender closes a channel that nothing was sent on. */
  function Hangup(ch: Channel): Channel {
    if ch.Open? then Closed else ch
  }

  function NextBook(l: Life, f: Flow, b: Book, e: Event): Book
    requires !OfLife(e) ==> FlowEnabled(l, f, b, e)
  {
    match e
    case Submit(k) =>
      b.(kinds := b.kinds[f.next := k], channels := b.channels[f.next := if k.Spawned? then Absent else Open])
    case Refuse(c) => b.(channels := b.channels[c := Hangup(b.channels[c])])
    case Dequeue => b.(starts := b.starts + multiset{f.queue[0]})
    case Turns(c, turn) =>
      var a := Advance(b.kinds[c], f.running[c], turn);
      b.(channels := b.channels[c := if a.1.Some? then Sent(a.1.value)
                                     else if a.0.None? then Hangup(b.channels[c]) else b.channels[c]],
         sends := if a.1.Some? then b.sends + multiset{c} else b.sends,
         acked := if f.running[c].Acking? && turn.Works? then b.acked + {c} else b.acked)
    case _ =>
      b.(channels := if DropsQueue(l, e)
                     then map c | c in b.channels :: if c in f.queue then Hangup(b.channels[c]) else b.channels[c]
                     else b.channels)
  }

  function Apply(s: State, e: Event): State
    requires Enabled(s, e)
  {
    State(NextFlow(s.life, s.flow, s.book, e), NextLife(s.life, e), NextBook(s.life, s.flow, s.book, e))
  }

  function Exec(s: State, es: seq<Event>): Option<State>
    decreases |es|
  {
    if es == [] then Some(s)
    else if Enabled(s, es[0]) then Exec(Apply(s, es[0]), es[1..])
    else None
  }

  // ----- each task is in one place ------------------------------------------------

  function One(b: bool): nat {
    if b then 1 else 0
  }

  /** In how many places a call's task is. */
  function Places(f: Flow, c: Call): nat {
    One(c in f.sending) + multiset(f.queue)[c] + One(c in f.running) + One(c in f.completed)
    + One(c in f.dropped) + One(c in f.refused)
  }

  ghost predicate Conserved(f: Flow) {
    forall c: Call :: Places(f, c) == One(c < f.next)
  }

  datatype Where = Nowhere | AtSender | Queued | Run(pc: Pc) | Completed | Dropped | Refused

  function Place(f: Flow, c: Call): Where {
    if c in f.sending then AtSender
    else if c in f.queue then Queued
    else if c in f.running then Run(f.running[c])
    else if c in f.completed then Completed
    else if c in f.dropped then Dropped
    else if c in f.refused then Refused
    else Nowhere
  }

  lemma PopCount(q: seq<Call>, c: Call)
    requires q != []
    ensures multiset(q)[c] == multiset(q[1..])[c] + One(q[0] == c)
  {
    assert q == [q[0]] + q[1..];
  }

  /** `Place` leaves nothing out: the place it names is the only one. */
  lemma OnePlace(f: Flow, c: Call)
    requires Conserved(f)
    ensures Place(f, c).Nowhere? <==> c >= f.next
    ensures c in f.sending <==> Place(f, c).AtSender?
    ensures c in f.queue <==> Place(f, c).Queued?
    ensures c in f.running <==> Place(f, c).Run?
    ensures c in f.completed <==> Place(f, c).Completed?
    ensures c in f.dropped <==> Place(f, c).Dropped?
    ensures c in f.refused <==> Place(f, c).Refused?
    ensures f.queue != [] && f.queue[0] == c ==> c !in f.queue[1..]
  {
    assert Places(f, c) == One(c < f.next);
    assert c in f.queue <==> multiset(f.queue)[c] > 0;
    if f.queue != [] {
      PopCount(f.queue, c);
      assert c in f.queue[1..] <==> multiset(f.queue[1..])[c] > 0;
    }
  }

  /** Where a step takes the task of `c`. */
  function PlaceAfter(s: State, e: Event, c: Call): Where
    requires Enabled(s, e)
  {
    var f := s.flow;
    match e
    case Submit(_) => if c == f.next then AtSender else Place(f, c)
    case Push(d) => if c == d then Queued else Place(f, c)
    case Refuse(d) => if c == d then Refused else Place(f, c)
    case Dequeue => if c == f.queue[0] then Run(Opening) else Place(f, c)
    case Turns(d, turn) =>
      if c != d then Place(f, c)
      else
        var a := Advance(s.book.kinds[c], f.running[c], turn);
        if a.0.Some? then Run(a.0.value) else Completed
    case _ => if DropsQueue(s.life, e) && Place(f, c).Queued? then Dropped else Place(f, c)
  }

  lemma EntryMoves(s: State, e: Event, c: Call)
    requires Conserved(s.flow) && Enabled(s, e) && (e.Submit? || e.Push? || e.Refuse?)
    ensures var f := Apply(s, e).flow; Places(f, c) == One(c < f.next) && Place(f, c) == PlaceAfter(s, e, c)
  {
    hide NextLife, NextBook, Advance, DropsQueue;
    OnePlace(s.flow, c);
    assert Places(s.flow, c) == One(c < s.flow.next);
    if e.Push? {
      assert multiset(s.flow.queue + [e.call])[c] == multiset(s.flow.queue)[c] + One(c == e.call);
    }
  }

  lemma DequeueMoves(s: State, c: Call)
    requires Conserved(s.flow) && Enabled(s, Dequeue)
    ensures var f := Apply(s, Dequeue).flow; Places(f, c) == One(c < f.next) && Place(f, c) == PlaceAfter(s, Dequeue, c)
  {
    hide NextLife, NextBook, Advance, DropsQueue;
    OnePlace(s.flow, c);
    OnePlace(s.flow, s.flow.queue[0]);
    PopCount(s.flow.queue, c);
    assert c in s.flow.queue <==> multiset(s.flow.queue)[c] > 0;
    assert Places(s.flow, c) == One(c < s.flow.next);
    assert s.flow.queue == [s.flow.queue[0]] + s.flow.queue[1..];
  }

  lemma TurnMoves(s: State, e: Event, c: Call)
    requires Conserved(s.flow) && Enabled(s, e) && e.Turns?
    ensures var f := Apply(s, e).flow; Places(f, c) == One(c < f.next) && Place(f, c) == PlaceAfter(s, e, c)
  {
    hide NextLife, NextBook, Advance, DropsQueue;
    OnePlace(s.flow, c);
    assert Places(s.flow, c) == One(c < s.flow.next);
  }

  lemma LifeMoves(s: State, e: Event, c: Call)
    requires Conserved(s.flow) && Enabled(s, e) && OfLife(e)
    ensures var f := Apply(s, e).flow; Places(f, c) == One(c < f.next) && Place(f, c) == PlaceAfter(s, e, c)
  {
    hide NextLife, NextBook, Advance, DropsQueue;
    OnePlace(s.flow, c);
    assert c in s.flow.queue <==> multiset(s.flow.queue)[c] > 0;
    assert Places(s.flow, c) == One(c < s.flow.next);
  }

  lemma StepMoves(s: State, e: Event, c: Call)
    requires Conserved(s.flow) && Enabled(s, e)
    ensures var f := Apply(s, e).flow; Places(f, c) == One(c < f.next) && Place(f, c) == PlaceAfter(s, e, c)
  {
    hide Conserved, Apply, Enabled, Places, Place, PlaceAfter;
    if OfLife(e) {
      LifeMoves(s, e, c);
    } else if e.Turns? {
      TurnMoves(s, e, c);
    } else if e.Dequeue? {
      DequeueMoves(s, c);
    } else {
      EntryMoves(s, e, c);
    }
  }

  lemma StepKeepsConserved(s: State, e: Event)
    requires Conserved(s.flow) && Enabled(s, e)
    ensures Conserved(Apply(s, e).flow)
  {
    hide Apply, Enabled, Places, Place, PlaceAfter;
    forall c: Call
      ensures Places(Apply(s, e).flow, c) == One(c < Apply(s, e).flow.next)
    {
      StepMoves(s, e, c);
    }
  }

  // ----- the node's life --------------------------------------------------------------

  /** The status, the token and the two subtasks by phase; `Failed` is the return
      after a failed first beat, which leaves the status at `Ready`. */
  predicate Alive(l: Life) {
    && (match l.phase {
          case Unserved => l.history == [Ready] && l.tasks.NotStarted? && l.streams.NotStarted?
          case FirstBeat => l.history == [Ready] && l.tasks.NotStarted? && l.streams.NotStarted?
          case Failed => l.history == [Ready] && l.tasks.NotStarted? && l.streams.NotStarted?
          case Beating => l.history == [Ready, Running] && !l.tasks.NotStarted? && !l.streams.NotStarted?
          case Joining =>
            l.history == [Ready, Running, Stopping] && !l.tasks.NotStarted? && !l.streams.NotStarted? && l.cancelled
          case Done =>
            l.history == [Ready, Running, Stopping, Stopped] && l.tasks.Ended? && l.streams.Ended? && l.cancelled
        })
    && (l.gone ==> l.phase.Unserved? || l.phase.Failed? || l.phase.Done?)
    && !l.streams.Draining?
  }

  lemma StepKeepsAlive(s: State, e: Event)
    requires Alive(s.life) && Enabled(s, e)
    ensures Alive(Apply(s, e).life)
  {
    hide NextFlow, NextBook;
  }

  /** A closed queue is empty, and only a started task loop runs tasks. */
  predicate Housed(l: Life, f: Flow) {
    && (f.queue != [] ==> QueueOpen(l))
    && (f.running != map[] ==> l.tasks.Active? || l.tasks.Draining?)
    && (f.completed != {} ==> !l.tasks.NotStarted?)
    && |f.queue| <= QUEUE_CAPACITY
  }

  lemma StepKeepsHoused(s: State, e: Event)
    requires Alive(s.life) && Housed(s.life, s.flow) && Enabled(s, e)
    ensures Housed(Apply(s, e).life, Apply(s, e).flow)
  {
    hide NextBook, Advance;
  }

  // ----- the book of each call -----------------------------------------------------------

  /** What is on record about a call whose task is at `p`: how often it was
      started, what its channel holds, how often it was sent on, and whether its
      task has read the peer's acknowledgement. */
  predicate Fits(p: Where, k: Kind, ch: Channel, starts: nat, sends: nat, acked: bool) {
    && sends == One(ch.Sent?)
    && (k.Spawned? <==> ch.Absent?)
    && (match p
        case Run(pc) =>
          && starts == 1 && (acked <==> !pc.Opening? && !pc.Writing? && !pc.Acking?)
          && (pc.Replying? || pc.Deciding? ==> k.Staged?)
          && (!k.Spawned? ==> if k.Staged? && (pc.Deciding? || pc.Executing?) then ch.Sent? else ch.Open?)
        case Completed => starts == 1 && !ch.Open? && (ch.Closed? ==> !acked)
        case Dropped => starts == 0 && !acked && (ch.Absent? || ch.Closed?)
        case Refused => starts == 0 && !acked && (ch.Absent? || ch.Closed?)
        case _ => starts == 0 && !acked && (ch.Absent? || ch.Open?))
  }

  predicate Kept(f: Flow, b: Book, c: Call) {
    && (c in b.kinds <==> c < f.next) && (c in b.channels <==> c < f.next)
    && (if c < f.next then c in b.kinds && c in b.channels
                           && Fits(Place(f, c), b.kinds[c], b.channels[c], b.starts[c], b.sends[c], c in b.acked)
        else b.starts[c] == 0 && b.sends[c] == 0 && c !in b.acked)
  }

  ghost predicate Booked(f: Flow, b: Book) {
    forall c: Call :: Kept(f, b, c)
  }

  /** A call the step is not about keeps its record. */
  predicate SameRecord(b: Book, b': Book, c: Call) {
    && (c in b'.kinds <==> c in b.kinds) && (c in b.kinds && c in b'.kinds ==> b'.kinds[c] == b.kinds[c])
    && (c in b'.channels <==> c in b.channels)
    && (c in b.channels && c in b'.channels ==> b'.channels[c] == b.channels[c])
    && b'.starts[c] == b.starts[c] && b'.sends[c] == b.sends[c] && (c in b'.acked <==> c in b.acked)
  }

  predicate About(s: State, e: Event, c: Call)
    requires Enabled(s, e)
  {
    match e
    case Submit(_) => c == s.flow.next
    case Push(d) => c == d
    case Refuse(d) => c == d
    case Dequeue => c == s.flow.queue[0]
    case Turns(d, _) => c == d
    case _ => DropsQueue(s.life, e) && c in s.flow.queue
  }

  lemma OthersKeepRecord(s: State, e: Event, c: Call)
    requires Enabled(s, e) && !About(s, e, c)
    ensures SameRecord(s.book, Apply(s, e).book, c)
  {
    hide NextFlow, NextLife, Advance, QueueOpen;
  }

  lemma OthersStayPut(s: State, e: Event, c: Call)
    requires Conserved(s.flow) && Enabled(s, e) && !About(s, e, c)
    ensures Place(Apply(s, e).flow, c) == Place(s.flow, c)
    ensures c < Apply(s, e).flow.next <==> c < s.flow.next
  {
    StepMoves(s, e, c);
    OnePlace(s.flow, c);
    StepKeepsConserved(s, e);
    OnePlace(Apply(s, e).flow, c);
    hide Conserved, NextFlow, NextBook, NextLife, Advance, Place, QueueOpen;
  }

  lemma OthersStayKept(s: State, e: Event, c: Call)
    requires Conserved(s.flow) && Enabled(s, e) && !About(s, e, c) && Kept(s.flow, s.book, c)
    ensures Kept(Apply(s, e).flow, Apply(s, e).book, c)
  {
    hide Conserved, Apply, Enabled, About, Place, Fits;
    OthersKeepRecord(s, e, c);
    OthersStayPut(s, e, c);
  }

  lemma SubmitIsKept(s: State, k: Kind)
    requires Conserved(s.flow) && Enabled(s, Submit(k)) && Kept(s.flow, s.book, s.flow.next)
    ensures Kept(Apply(s, Submit(k)).flow, Apply(s, Submit(k)).book, s.flow.next)
  {
    hide Conserved, Place;
    StepMoves(s, Submit(k), s.flow.next);
  }

  lemma EntryIsKept(s: State, e: Event, c: Call)
    requires Conserved(s.flow) && Enabled(s, e) && Kept(s.flow, s.book, c)
    requires (e.Push? || e.Refuse?) && e.call == c
    ensures Kept(Apply(s, e).flow, Apply(s, e).book, c)
  {
    hide Conserved, Place, QueueOpen;
    StepMoves(s, e, c);
    OnePlace(s.flow, c);
  }

  lemma StartIsKept(s: State, c: Call)
    requires Conserved(s.flow) && Enabled(s, Dequeue) && s.flow.queue[0] == c && Kept(s.flow, s.book, c)
    ensures Kept(Apply(s, Dequeue).flow, Apply(s, Dequeue).book, c)
  {
    hide Conserved, Place;
    StepMoves(s, Dequeue, c);
    OnePlace(s.flow, c);
  }

  lemma TurnIsKept(s: State, c: Call, turn: Turn)
    requires Conserved(s.flow) && Enabled(s, Turns(c, turn)) && Kept(s.flow, s.book, c)
    ensures Kept(Apply(s, Turns(c, turn)).flow, Apply(s, Turns(c, turn)).book, c)
  {
    hide Conserved;
    StepMoves(s, Turns(c, turn), c);
    OnePlace(s.flow, c);
  }

  lemma DropIsKept(s: State, e: Event, c: Call)
    requires Conserved(s.flow) && Enabled(s, e) && DropsQueue(s.life, e) && c in s.flow.queue && Kept(s.flow, s.book, c)
    ensures Kept(Apply(s, e).flow, Apply(s, e).book, c)
  {
    hide Conserved, Place, Elements;
    StepMoves(s, e, c);
    OnePlace(s.flow, c);
  }

  lemma StepKeepsBooked(s: State, e: Event)
    requires Conserved(s.flow) && Booked(s.flow, s.book) && Enabled(s, e)
    ensures Booked(Apply(s, e).flow, Apply(s, e).book)
  {
    forall c: Call
      ensures Kept(Apply(s, e).flow, Apply(s, e).book, c)
    {
      assert Kept(s.flow, s.book, c);
      hide Conserved, Apply, Kept, Booked, QueueOpen;
      if !About(s, e, c) {
        OthersStayKept(s, e, c);
      } else if e.Submit? {
        SubmitIsKept(s, e.kind);
      } else if e.Push? || e.Refuse? {
        EntryIsKept(s, e, c);
      } else if e.Dequeue? {
        StartIsKept(s, c);
      } else if e.Turns? {
        TurnIsKept(s, c, e.turn);
      } else {
        DropIsKept(s, e, c);
      }
    }
  }

  // ----- all runs ----------------------------------------------------------------------------

  ghost predicate Inv(s: State) {
    Conserved(s.flow) && Alive(s.life) && Housed(s.life, s.flow) && Booked(s.flow, s.book)
  }

  lemma StepKeepsInv(s: State, e: Event)
    requires Inv(s) && Enabled(s, e)
    ensures Inv(Apply(s, e))
  {
    hide Conserved, Alive, Housed, Booked, Apply, Enabled;
    StepKeepsConserved(s, e);
    StepKeepsAlive(s, e);
    StepKeepsHoused(s, e);
    StepKeepsBooked(s, e);
  }

  lemma {:induction false} RunKeepsInv(s: State, es: seq<Event>)
    requires Inv(s) && Exec(s, es).Some?
    ensures Inv(Exec(s, es).value)
    decreases |es|
  {
    hide Inv, Apply, Enabled;
    if es != [] {
      StepKeepsInv(s, es[0]);
      RunKeepsInv(Apply(s, es[0]), es[1..]);
    }
  }

  ghost predicate Reachable(s: State) {
    exists es: seq<Event> :: Exec(NEW_NODE, es) == Some(s)
  }

  lemma ReachableInv(s: State)
    requires Reachable(s)
    ensures Inv(s)
  {
    var es: seq<Event> :| Exec(NEW_NODE, es) == Some(s);
    assert Inv(NEW_NODE);
    hide Inv, Apply, Enabled;
    RunKeepsInv(NEW_NODE, es);
  }

  /** Each submitted task is waiting to be queued, queued, running, completed,
      dropped or refused, never two of these and never twice. */
  lemma TasksAreConserved(s: State, c: Call)
    requires Reachable(s)
    ensures Places(s.flow, c) == if c < s.flow.next then 1 else 0
  {
    ReachableInv(s);
    hide Places;
  }

  /** A task is started at most once, exactly when it is running or completed;
      its channel is sent on at most once, exactly when a reply was sent. */
  lemma EachCallOnce(s: State, c: Call)
    requires Reachable(s) && c < s.flow.next
    ensures s.book.starts[c] <= 1 && s.book.sends[c] <= 1
    ensures s.book.starts[c] == 1 <==> c in s.flow.running || c in s.flow.completed
    ensures c in s.book.channels && (s.book.sends[c] == 1 <==> s.book.channels[c].Sent?)
  {
    ReachableInv(s);
    OnePlace(s.flow, c);
    assert Kept(s.flow, s.book, c);
    hide Conserved;
  }

  /** What the caller's await has returned, if it has: `send_task` refuses, `spawn`
      returns once the task is queued, the others wait on the channel, and a
      closed one reads as an exited node. */
  function Answer(s: State, c: Call): Option<Result<nat>>
    requires c in s.book.channels
  {
    if c in s.flow.refused then Some(Err(ErrorCode(NODE_ALREADY_EXIT)))
    else
      match s.book.channels[c]
      case Absent => if c in s.flow.sending then None else Some(Ok(0))
      case Open => None
      case Sent(reply) => Some(reply)
      case Closed => Some(Err(ErrorCode(NODE_ALREADY_EXIT)))
  }

  lemma StepKeepsAnswer(s: State, e: Event, c: Call)
    requires Inv(s) && Enabled(s, e) && c < s.flow.next
    ensures c in s.book.channels && c in Apply(s, e).book.channels && c < Apply(s, e).flow.next
    ensures Answer(s, c).Some? ==> Answer(Apply(s, e), c) == Answer(s, c)
  {
    var t := Apply(s, e);
    assert Kept(s.flow, s.book, c);
    StepKeepsInv(s, e);
    assert Kept(t.flow, t.book, c) || c >= t.flow.next;
    OnePlace(s.flow, c);
    OnePlace(t.flow, c);
    StepMoves(s, e, c);
    hide Conserved, Booked, Alive, Housed, Place;
    if !About(s, e, c) {
      OthersKeepRecord(s, e, c);
      OthersStayPut(s, e, c);
      hide Apply, Enabled, About, Fits;
    } else {
      AnswerOfSubject(s, e, c);
    }
  }

  lemma AnswerOfSubject(s: State, e: Event, c: Call)
    requires Conserved(s.flow) && Enabled(s, e) && About(s, e, c) && Kept(s.flow, s.book, c) && c < s.flow.next
    ensures c in Apply(s, e).book.channels && c < Apply(s, e).flow.next
    ensures Answer(s, c).Some? ==> Answer(Apply(s, e), c) == Answer(s, c)
  {
    OnePlace(s.flow, c);
    hide Conserved;
  }

  /** Once a caller has its answer, no later step changes it. */
  lemma {:induction false} AnswersAreFinal(s: State, es: seq<Event>, c: Call)
    requires Inv(s) && Exec(s, es).Some? && c < s.flow.next
    ensures c in s.book.channels && c in Exec(s, es).value.book.channels
    ensures Answer(s, c).Some? ==> Answer(Exec(s, es).value, c) == Answer(s, c)
    decreases |es|
  {
    assert Kept(s.flow, s.book, c);
    hide Apply, Enabled, Answer, Conserved, Booked, Alive, Housed;
    if es != [] {
      StepKeepsInv(s, es[0]);
      StepKeepsAnswer(s, es[0], c);
      AnswersAreFinal(Apply(s, es[0]), es[1..], c);
    }
  }

  /** A caller of `exec` or `exec_ack` whose channel was closed unsent is told that
      the node has exited, and then its task never read an acknowledgement; if the
      task was dropped or refused it was never even started. */
  lemma ExitMeansUnacknowledged(s: State, c: Call)
    requires Reachable(s) && c < s.flow.next && c in s.book.channels && s.book.channels[c].Closed?
    ensures Answer(s, c) == Some(Err(ErrorCode(NODE_ALREADY_EXIT))) && c !in s.book.acked
    ensures s.book.starts[c] == 0 <==> c in s.flow.dropped || c in s.flow.refused
  {
    ReachableInv(s);
    OnePlace(s.flow, c);
    assert Kept(s.flow, s.book, c);
    hide Conserved;
  }

  /** When the queue is closed and nothing runs, as when the node has stopped or is
      gone, no caller is left waiting: every one has its answer or is refused. */
  lemma NobodyWaitsForever(s: State, c: Call)
    requires Reachable(s) && c < s.flow.next && (s.life.gone || s.life.phase.Done?)
    ensures c in s.book.channels && (Answer(s, c).Some? || Enabled(s, Refuse(c)))
    ensures s.flow.queue == [] && s.flow.running == map[]
  {
    ReachableInv(s);
    OnePlace(s.flow, c);
    assert Kept(s.flow, s.book, c);
    hide Conserved;
  }

  /** The status only ever moves forward through its four values; a task is started
      only after the first beat; `Stopped` means both subtasks have been joined; a
      node whose first beat failed still reads `Ready`. */
  lemma StatusMovesForward(s: State, c: Call)
    requires Reachable(s)
    ensures s.life.history != [] && s.life.history <= [Ready, Running, Stopping, Stopped]
    ensures s.book.starts[c] > 0 ==> Running in s.life.history
    ensures Stopping in s.life.history ==> s.life.cancelled
    ensures Stopped in s.life.history ==> s.life.tasks.Ended? && s.life.streams.Ended? && s.flow.running == map[]
    ensures s.life.phase.Failed? ==> s.life.history == [Ready]
  {
    ReachableInv(s);
    OnePlace(s.flow, c);
    assert Kept(s.flow, s.book, c);
    assert s.book.starts[c] > 0 ==> !s.life.tasks.NotStarted?;
    assert !s.life.tasks.NotStarted? ==> s.life.history[1] == Running;
    hide Conserved;
  }

  /** `spawn` answers once the task is queued. Of the tasks it reported a success
      for, exactly those have started that are neither still queued nor dropped with
      the queue; once the node is done or gone, exactly those not dropped. */
  lemma SpawnedHasStartedIff(s: State, c: Call)
    requires Reachable(s) && c in s.book.kinds && s.book.kinds[c].Spawned?
    requires c in s.book.channels && Answer(s, c) == Some(Ok(0))
    ensures s.book.starts[c] == 1 <==> c !in s.flow.queue && c !in s.flow.dropped
    ensures s.life.gone || s.life.phase.Done? ==> (s.book.starts[c] == 1 <==> c !in s.flow.dropped)
  {
    ReachableInv(s);
    OnePlace(s.flow, c);
    assert Kept(s.flow, s.book, c);
    hide Conserved;
  }

  /** A success from `spawn` does not mean that the task will ever start: here it
      goes with the queue. */
  lemma QueuedSpawnMayNeverStart() returns (s: State)
    ensures Reachable(s) && s.flow.next == 1 && 0 in s.flow.dropped && s.book.starts[0] == 0
    ensures 0 in s.book.channels && Answer(s, 0) == Some(Ok(0))
  {
    var s1 := Apply(NEW_NODE, Submit(Spawned));
    var s2 := Apply(s1, Push(0));
    assert s2.flow.queue == [0];
    s := Apply(s2, Drop);
    var es := [Submit(Spawned), Push(0), Drop];
    assert es[1..] == [Push(0), Drop] && es[1..][1..] == [Drop] && [Drop][1..] == [];
    assert Exec(s, []) == Some(s);
    assert Exec(s2, [Drop]) == Some(s);
    assert Exec(s1, [Push(0), Drop]) == Some(s);
    assert Exec(NEW_NODE, es) == Some(s);
  }

  // ----- what a caller hears, by how its task's operations turned out --------------------------

  /** The turns of one call in a run, in order. */
  function TurnsOf(es: seq<Event>, c: Call): seq<Turn> {
    if es == [] then []
    else if es[0].Turns? && es[0].call == c then [es[0].turn] + TurnsOf(es[1..], c)
    else TurnsOf(es[1..], c)
  }

  function ReplyOf(turn: Turn): Result<nat> {
    if turn.Works? then Ok(turn.v) else Err(turn.error)
  }

  /** What the operations of a task leave on its channel. They are, in this order:
      opening a stream, writing the command, reading its acknowledgement, and then for
      `exec` the executor, for `exec_ack` reading the first value. A stream that cannot
      be opened closes the channel, and so does a command of `exec` that cannot be
      written; everything else that fails is told as it failed. */
  function Heard(k: Kind, ts: seq<Turn>): Channel {
    if k.Spawned? then Absent
    else if |ts| > 0 && ts[0].Breaks? then Closed
    else if |ts| > 1 && ts[1].Breaks? then (if k.Staged? then Sent(Err(ts[1].error)) else Closed)
    else if |ts| > 2 && ts[2].Breaks? then Sent(Err(ts[2].error))
    else if |ts| > 3 then Sent(ReplyOf(ts[3]))
    else Open
  }

  /** A task is over after its first failure, or after all its operations. */
  predicate Over(k: Kind, ts: seq<Turn>) {
    ts != [] && (ts[|ts| - 1].Breaks? || |ts| == if k.Staged? then 6 else 4)
  }

  predicate AllWork(ts: seq<Turn>) {
    forall i :: 0 <= i < |ts| ==> ts[i].Works?
  }

  /** How many operations are behind a task of a kind at a point. */
  function Behind(k: Kind, pc: Pc): nat {
    match pc
    case Opening => 0
    case Writing => 1
    case Acking => 2
    case Replying => 3
    case Deciding => 4
    case Executing => if k.Staged? then 5 else 3
  }

  predicate FollowsAt(p: Where, k: Kind, ch: Channel, acked: bool, ts: seq<Turn>) {
    && (acked <==> |ts| > 2 && ts[2].Works?)
    && (match p
        case Run(pc) => |ts| == Behind(k, pc) && AllWork(ts) && ch == Heard(k, ts)
        case Completed => Over(k, ts) && AllWork(ts[..|ts| - 1]) && ch == Heard(k, ts)
        case _ => ts == [])
  }

  predicate Follows(s: State, c: Call, ts: seq<Turn>) {
    if c < s.flow.next
    then c in s.book.kinds && c in s.book.channels
         && FollowsAt(Place(s.flow, c), s.book.kinds[c], s.book.channels[c], c in s.book.acked, ts)
    else ts == []
  }

  lemma OtherStepFollows(s: State, e: Event, c: Call, ts: seq<Turn>)
    requires Inv(s) && Enabled(s, e) && Follows(s, c, ts) && !About(s, e, c)
    ensures Follows(Apply(s, e), c, ts)
  {
    hide Alive, Housed, Place, FollowsAt, Apply, Enabled, About, Conserved;
    assert Kept(s.flow, s.book, c);
    OthersKeepRecord(s, e, c);
    OthersStayPut(s, e, c);
  }

  lemma QuietStepFollows(s: State, e: Event, c: Call, ts: seq<Turn>)
    requires Inv(s) && Enabled(s, e) && Follows(s, c, ts) && About(s, e, c) && !e.Turns?
    ensures Follows(Apply(s, e), c, ts)
  {
    assert Kept(s.flow, s.book, c);
    OnePlace(s.flow, c);
    StepMoves(s, e, c);
    StepKeepsBooked(s, e);
    assert Kept(Apply(s, e).flow, Apply(s, e).book, c);
    hide Conserved, Booked, Alive, Housed, Place, Over, AllWork;
  }

  /** One operation more, on the values alone. */
  lemma AdvanceFollows(k: Kind, pc: Pc, turn: Turn, ch: Channel, acked: bool, ts: seq<Turn>)
    requires FollowsAt(Run(pc), k, ch, acked, ts) && (pc.Replying? || pc.Deciding? ==> k.Staged?)
    requires k.Spawned? <==> ch.Absent?
    ensures var a := Advance(k, pc, turn);
            var ch' := if a.1.Some? then Sent(a.1.value) else if a.0.None? then Hangup(ch) else ch;
            FollowsAt(if a.0.Some? then Run(a.0.value) else Completed, k, ch',
                      acked || (pc.Acking? && turn.Works?), ts + [turn])
  {
    assert (ts + [turn])[..|ts|] == ts;
  }

  lemma OwnTurnFollows(s: State, c: Call, turn: Turn, ts: seq<Turn>)
    requires Inv(s) && Enabled(s, Turns(c, turn)) && Follows(s, c, ts)
    ensures Follows(Apply(s, Turns(c, turn)), c, ts + [turn])
  {
    assert Kept(s.flow, s.book, c);
    OnePlace(s.flow, c);
    StepMoves(s, Turns(c, turn), c);
    AdvanceFollows(s.book.kinds[c], s.flow.running[c], turn, s.book.channels[c], c in s.book.acked, ts);
    hide Conserved, Booked, Alive, Housed, FollowsAt, Advance;
  }

  lemma {:induction false} RunFollows(s: State, es: seq<Event>, t: State, c: Call, ts: seq<Turn>)
    requires Inv(s) && Exec(s, es) == Some(t) && Follows(s, c, ts)
    ensures Follows(t, c, ts + TurnsOf(es, c))
    decreases |es|
  {
    hide Inv, Apply, Enabled, Follows, About;
    if es == [] {
      assert ts + [] == ts;
    } else {
      var e := es[0];
      StepKeepsInv(s, e);
      if e.Turns? && e.call == c {
        OwnTurnFollows(s, c, e.turn, ts);
        RunFollows(Apply(s, e), es[1..], t, c, ts + [e.turn]);
        assert ts + [e.turn] + TurnsOf(es[1..], c) == ts + ([e.turn] + TurnsOf(es[1..], c));
      } else {
        if About(s, e, c) {
          TurnsAreAbout(s, e, c);
          QuietStepFollows(s, e, c, ts);
        } else {
          OtherStepFollows(s, e, c, ts);
        }
        RunFollows(Apply(s, e), es[1..], t, c, ts);
      }
    }
  }

  lemma TurnsAreAbout(s: State, e: Event, c: Call)
    requires Enabled(s, e) && About(s, e, c) && !(e.Turns? && e.call == c)
    ensures !e.Turns?
  {
  }

  /** In every run: a task that was started is completed exactly if its operations are
      over, its channel holds what they leave there, and it has read an acknowledgement
      exactly if its third operation worked; a task that was not started had none. */
  lemma AnswersFollowTheTurns(es: seq<Event>, s: State, c: Call)
    requires Exec(NEW_NODE, es) == Some(s) && c < s.flow.next
    ensures c in s.book.kinds && c in s.book.channels
    ensures var k, ts := s.book.kinds[c], TurnsOf(es, c);
            && (c in s.flow.running || c in s.flow.completed ==>
                  && s.book.channels[c] == Heard(k, ts) && (c in s.flow.completed <==> Over(k, ts))
                  && (c in s.book.acked <==> |ts| > 2 && ts[2].Works?))
            && (c !in s.flow.running && c !in s.flow.completed ==> ts == [])
  {
    assert Inv(NEW_NODE);
    assert Follows(NEW_NODE, c, []);
    RunFollows(NEW_NODE, es, s, c, []);
    RunKeepsInv(NEW_NODE, es);
    assert [] + TurnsOf(es, c) == TurnsOf(es, c);
    assert Kept(s.flow, s.book, c);
    OnePlace(s.flow, c);
    hide Conserved, Booked, Alive, Housed, Heard, TurnsOf, Exec;
  }

  // ----- the queue keeps its order -------------------------------------------------------------

  /** The calls queued in a run, in order. */
  function Pushed(es: seq<Event>): seq<Call> {
    if es == [] then []
    else if es[0].Push? then [es[0].call] + Pushed(es[1..])
    else Pushed(es[1..])
  }

  /** The calls started in a run, in order. */
  function Taken(s: State, es: seq<Event>): seq<Call>
    requires Exec(s, es).Some?
    decreases |es|
  {
    if es == [] then []
    else
      var more := Taken(Apply(s, es[0]), es[1..]);
      if es[0].Dequeue? then [s.flow.queue[0]] + more else more
  }

  lemma QueueStep(s: State, e: Event)
    requires Inv(s) && Enabled(s, e)
    ensures QueueOpen(Apply(s, e).life) ==> QueueOpen(s.life)
    ensures e.Push? ==> Apply(s, e).flow.queue == s.flow.queue + [e.call]
    ensures e.Dequeue? ==> s.flow.queue != [] && Apply(s, e).flow.queue == s.flow.queue[1..]
    ensures !e.Push? && !e.Dequeue? ==>
              if QueueOpen(s.life) && !QueueOpen(Apply(s, e).life) then Apply(s, e).flow.queue == []
              else Apply(s, e).flow.queue == s.flow.queue
  {
    hide Conserved, Booked, NextBook, Advance;
  }

  lemma {:induction false} RunKeepsOrder(s: State, es: seq<Event>, t: State)
    requires Inv(s) && Exec(s, es) == Some(t)
    ensures Taken(s, es) + t.flow.queue <= s.flow.queue + Pushed(es)
    ensures QueueOpen(t.life) ==> QueueOpen(s.life) && Taken(s, es) + t.flow.queue == s.flow.queue + Pushed(es)
    decreases |es|
  {
    hide Inv, Apply, Enabled, QueueOpen;
    if es == [] {
      assert s.flow.queue + [] == s.flow.queue == [] + s.flow.queue;
    } else {
      var e, m := es[0], Apply(s, es[0]);
      QueueStep(s, e);
      StepKeepsInv(s, e);
      RunKeepsOrder(m, es[1..], t);
      var rest, later := Taken(m, es[1..]) + t.flow.queue, Pushed(es[1..]);
      if e.Push? {
        assert s.flow.queue + ([e.call] + later) == m.flow.queue + later;
      } else if e.Dequeue? {
        assert s.flow.queue == [s.flow.queue[0]] + m.flow.queue;
        assert [s.flow.queue[0]] + Taken(m, es[1..]) + t.flow.queue == [s.flow.queue[0]] + rest;
        assert s.flow.queue + later == [s.flow.queue[0]] + (m.flow.queue + later);
      } else if m.flow.queue != s.flow.queue {
        ClosedForGood(m, es[1..], t);
        assert later == [];
      }
    }
  }

  /** A closed queue takes and gives nothing. */
  lemma {:induction false} ClosedForGood(s: State, es: seq<Event>, t: State)
    requires Inv(s) && Exec(s, es) == Some(t) && !QueueOpen(s.life) && s.flow.queue == []
    ensures Pushed(es) == [] && Taken(s, es) == [] && t.flow.queue == []
    decreases |es|
  {
    if es != [] {
      QueueStep(s, es[0]);
      if es[0].Push? {
        PushNeedsOpenQueue(s, es[0]);
        assert false;
      }
      StepKeepsInv(s, es[0]);
      hide Inv, Apply, Enabled, QueueOpen;
      ClosedForGood(Apply(s, es[0]), es[1..], t);
    }
  }

  lemma PushNeedsOpenQueue(s: State, e: Event)
    requires Enabled(s, e) && e.Push?
    ensures QueueOpen(s.life)
  {
  }

  /** Tasks are started in the order in which they were queued: those started and those
      still queued are, in this order, the first that were queued, and all of them as
      long as the queue is open. */
  lemma QueueIsFifo(es: seq<Event>, s: State)
    requires Exec(NEW_NODE, es) == Some(s)
    ensures Taken(NEW_NODE, es) + s.flow.queue <= Pushed(es)
    ensures QueueOpen(s.life) ==> Taken(NEW_NODE, es) + s.flow.queue == Pushed(es)
  {
    assert Inv(NEW_NODE);
    RunKeepsOrder(NEW_NODE, es, s);
    assert [] + Pushed(es) == Pushed(es);
  }

  // ----- a node can always be brought to its end ------------------------------------------------

  lemma {:induction false} Extend(s: State, es: seq<Event>, e: Event)
    requires Exec(s, es).Some? && Enabled(Exec(s, es).value, e)
    ensures Exec(s, es + [e]) == Some(Apply(Exec(s, es).value, e))
    decreases |es|
  {
    hide Enabled, Apply;
    if es == [] {
      assert es + [e] == [e];
      assert [e][1..] == [];
    } else {
      Extend(Apply(s, es[0]), es[1..], e);
      assert (es + [e])[1..] == es[1..] + [e];
    }
  }

  /** `t` comes after `s` in some run, and the invariant holds of it. */
  ghost predicate Later(s: State, t: State) {
    Inv(t) && exists es: seq<Event> :: Exec(s, es) == Some(t)
  }

  lemma LaterStep(s: State, m: State, e: Event) returns (t: State)
    requires Later(s, m) && Enabled(m, e)
    ensures t == Apply(m, e) && Later(s, t)
  {
    t := Apply(m, e);
    var es: seq<Event> :| Exec(s, es) == Some(m);
    StepKeepsInv(m, e);
    hide Inv, Apply, Enabled;
    Extend(s, es, e);
  }

  /** The node stops beating, or never begins. */
  lemma Stops(s: State, m: State) returns (t: State)
    requires Later(s, m)
    ensures Later(s, t)
    ensures t.life.phase.Joining? || t.life.phase.Unserved? || t.life.phase.Failed? || t.life.phase.Done?
  {
    t := m;
    if m.life.phase.FirstBeat? {
      t := LaterStep(s, m, FirstBeatFails);
    } else if m.life.phase.Beating? {
      t := LaterStep(s, m, BeatEnds);
    }
  }

  /** Both subtasks leave their loops. */
  lemma BreaksLoops(s: State, m: State) returns (t: State)
    requires Later(s, m) && m.life.phase.Joining?
    ensures Later(s, t) && t.life.phase.Joining? && t.life.streams.Ended?
    ensures t.life.tasks.Draining? || t.life.tasks.Ended?
  {
    hide Conserved, Booked;
    t := m;
    if t.life.streams.Active? {
      t := LaterStep(s, t, StreamsEnd);
    }
    if t.life.tasks.Active? {
      t := LaterStep(s, t, TasksBreak);
    }
  }

  /** Every running task comes to its end. */
  lemma {:induction false} DrainsTasks(s: State, m: State) returns (t: State)
    requires Later(s, m)
    ensures Later(s, t) && t.flow.running == map[] && t.life == m.life
    decreases |m.flow.running.Keys|
  {
    if m.flow.running == map[] {
      t := m;
    } else {
      var c :| c in m.flow.running;
      assert Kept(m.flow, m.book, c);
      OnePlace(m.flow, c);
      var n := LaterStep(s, m, Turns(c, Breaks(ErrorCode(NODE_ALREADY_EXIT))));
      assert n.flow.running.Keys == m.flow.running.Keys - {c};
      t := DrainsTasks(s, n);
    }
  }

  /** Whoever still waits to queue a task is refused. */
  lemma {:induction false} RefusesAll(s: State, m: State) returns (t: State)
    requires Later(s, m) && !QueueOpen(m.life)
    ensures Later(s, t) && t.flow.sending == {} && t.life == m.life
    decreases |m.flow.sending|
  {
    if m.flow.sending == {} {
      t := m;
    } else {
      var c :| c in m.flow.sending;
      assert Kept(m.flow, m.book, c);
      OnePlace(m.flow, c);
      var n := LaterStep(s, m, Refuse(c));
      t := RefusesAll(s, n);
    }
  }

  lemma Ends(s: State, m: State) returns (t: State)
    requires Later(s, m) && m.life.phase.Joining? && m.life.streams.Ended? && m.flow.running == map[]
    requires m.life.tasks.Draining? || m.life.tasks.Ended?
    ensures Later(s, t) && t.life.phase.Done?
  {
    hide Conserved, Booked;
    t := m;
    if t.life.tasks.Draining? {
      t := LaterStep(s, t, TasksEnd);
    }
    t := LaterStep(s, t, Finish);
  }

  lemma {:induction false} CancelledIff(s: State, es: seq<Event>)
    requires Exec(s, es).Some?
    ensures Exec(s, es).value.life.cancelled <==> s.life.cancelled || Cancel in es || BeatEnds in es
    decreases |es|
  {
    hide Enabled, NextFlow, NextBook;
    if es != [] {
      var e := es[0];
      assert Apply(s, e).life.cancelled <==> s.life.cancelled || e == Cancel || e == BeatEnds;
      assert es == [e] + es[1..];
      CancelledIff(Apply(s, e), es[1..]);
    }
  }

  lemma CancelsStreams(s: State)
    ensures s.life.streams.Active? ==> Exec(s, [Cancel, StreamsEnd]).Some?
  {
    hide NextFlow, NextBook;
    if s.life.streams.Active? {
      assert Enabled(Apply(s, Cancel), StreamsEnd);
      assert Exec(Apply(s, Cancel), [StreamsEnd]).Some?;
      assert [Cancel, StreamsEnd][1..] == [StreamsEnd];
    }
  }

  /** When the two loops of a node can end, over all its runs: the stream loop once
      the node was cancelled from above, as it can be at any time, or its beating ended; the task loop then
      too, or when every handle is gone and the queue is empty. */
  lemma LoopsEndIff(es: seq<Event>)
    requires Exec(NEW_NODE, es).Some?
    ensures var s := Exec(NEW_NODE, es).value;
            && (Enabled(s, StreamsEnd) <==> s.life.streams.Active? && (Cancel in es || BeatEnds in es))
            && (Enabled(s, TasksBreak) <==> s.life.tasks.Active? && (Cancel in es || BeatEnds in es
                                                                     || (s.life.handlesGone && s.flow.queue == [])))
            && (s.life.streams.Active? ==> Exec(s, [Cancel, StreamsEnd]).Some?)
  {
    var s := Exec(NEW_NODE, es).value;
    CancelledIff(NEW_NODE, es);
    CancelsStreams(s);
    hide Exec, Apply;
  }

  /** From every reachable state the node can be brought to its end: it is gone, with
      its status at `Stopped` if it ever ran, and every call ever made through it has
      its answer. */
  lemma CanAlwaysEnd(s: State) returns (t: State)
    requires Reachable(s)
    ensures Later(s, t) && t.life.gone && t.flow.running == map[] && t.flow.sending == {} && t.flow.queue == []
    ensures Running in s.life.history ==> Stopped in t.life.history
    ensures forall c: Call :: c < t.flow.next ==> c in t.book.channels && Answer(t, c).Some?
  {
    ReachableInv(s);
    assert Exec(s, []) == Some(s);
    hide Inv, Exec;
    t := BringsDown(s);
    hide Later;
    t := IsDropped(s, t);
    t := RefusesAll(s, t);
    LaterHolds(s, t);
    AllAnswered(t);
    if Running in s.life.history {
      HistoryGrows(s, t);
    }
  }

  lemma LaterHolds(s: State, t: State)
    requires Later(s, t)
    ensures Inv(t)
  {
  }

  lemma BringsDown(s: State) returns (t: State)
    requires Later(s, s)
    ensures Later(s, t) && (t.life.phase.Unserved? || t.life.phase.Failed? || t.life.phase.Done?)
  {
    hide Later;
    t := Stops(s, s);
    if t.life.phase.Joining? {
      t := BreaksLoops(s, t);
      t := DrainsTasks(s, t);
      t := Ends(s, t);
    }
  }

  lemma IsDropped(s: State, m: State) returns (t: State)
    requires Later(s, m) && (m.life.phase.Unserved? || m.life.phase.Failed? || m.life.phase.Done?)
    ensures Later(s, t) && t.life.gone && !QueueOpen(t.life)
  {
    hide Conserved, Booked;
    t := m;
    if !t.life.gone {
      t := LaterStep(s, t, Drop);
    }
  }

  lemma AllAnswered(t: State)
    requires Inv(t) && t.life.gone && t.flow.sending == {}
    ensures t.flow.running == map[] && t.flow.queue == []
    ensures forall c: Call :: c < t.flow.next ==> c in t.book.channels && Answer(t, c).Some?
  {
    forall c: Call | c < t.flow.next
      ensures c in t.book.channels && Answer(t, c).Some?
    {
      assert Kept(t.flow, t.book, c);
      OnePlace(t.flow, c);
    }
  }

  lemma {:induction false} RunGrowsHistory(s: State, es: seq<Event>, t: State)
    requires Exec(s, es) == Some(t)
    ensures s.life.history <= t.life.history
    decreases |es|
  {
    if es != [] {
      RunGrowsHistory(Apply(s, es[0]), es[1..], t);
    }
  }

  lemma HistoryGrows(s: State, t: State)
    requires Later(s, t) && t.life.gone && Running in s.life.history
    ensures Stopped in t.life.history
  {
    var es: seq<Event> :| Exec(s, es) == Some(t);
    RunGrowsHistory(s, es, t);
    hide Exec, Conserved, Booked;
    assert Running in t.life.history;
    assert t.life.phase.Done?;
    assert t.life.history[3] == Stopped;
  }

  /** When nobody holds the node's handle any more its task loop ends while the node
      goes on beating. */
  lemma LoopEndsWithoutHandles() returns (s: State)
    ensures Reachable(s) && s.life.phase.Beating? && !s.life.cancelled && s.life.tasks.Ended?
  {
    StartsLater();
    var m := NobodyHolds();
    hide Later, NextBook;
    var s4 := LaterStep(NEW_NODE, m, TasksBreak);
    s := LaterStep(NEW_NODE, s4, TasksEnd);
    LaterIsReachable(s);
  }

  lemma StartsLater()
    ensures Later(NEW_NODE, NEW_NODE)
  {
    assert Inv(NEW_NODE);
    assert Exec(NEW_NODE, []) == Some(NEW_NODE);
  }

  lemma LaterIsReachable(s: State)
    requires Later(NEW_NODE, s)
    ensures Reachable(s)
  {
    hide Inv, Exec;
  }

  lemma NobodyHolds() returns (s: State)
    ensures Later(NEW_NODE, s) && s.flow == NEW_NODE.flow
    ensures s.life.phase.Beating? && !s.life.cancelled && s.life.tasks.Active? && s.life.handlesGone
  {
    StartsLater();
    hide Later, NextBook;
    var s1 := LaterStep(NEW_NODE, NEW_NODE, Begin);
    var s2 := LaterStep(NEW_NODE, s1, FirstBeatWorks);
    s := LaterStep(NEW_NODE, s2, DropHandles);
  }

  // ----- every call can be served ----------------------------------------------------------------

  /** The task loop starts whatever is queued. */
  lemma {:induction false} StartsAll(s: State, m: State) returns (t: State)
    requires Later(s, m) && m.life.tasks.Active?
    ensures Later(s, t) && t.flow.queue == [] && t.life == m.life && t.flow.next == m.flow.next
    decreases |m.flow.queue|
  {
    hide Later, NextBook;
    if m.flow.queue == [] {
      t := m;
    } else {
      var n := LaterStep(s, m, Dequeue);
      t := StartsAll(s, n);
    }
  }

  /** A new call comes to the front of the queue and is started. */
  lemma StartsNew(s: State, m: State, k: Kind) returns (t: State)
    requires Later(s, m) && m.life.tasks.Active? && !m.life.handlesGone && m.flow.queue == []
    ensures var c := m.flow.next;
            && Later(s, t) && t.life == m.life && t.flow.next == c + 1
            && c in t.flow.running && t.flow.running[c] == Opening
            && OnRecord(t.book, c) && t.book.kinds[c] == k
            && t.book.channels[c] == (if k.Spawned? then Absent else Open)
  {
    hide Later;
    var c := m.flow.next;
    var a := LaterStep(s, m, Submit(k));
    var b := LaterStep(s, a, Push(c));
    assert b.flow.queue == [c];
    t := LaterStep(s, b, Dequeue);
  }

  /** Each of its operations works. */
  lemma TurnWorks(s: State, m: State, c: Call, v: nat) returns (t: State)
    requires Later(s, m) && c in m.flow.running && OnRecord(m.book, c)
    ensures var k, pc := m.book.kinds[c], m.flow.running[c];
            var a := Advance(k, pc, Works(v));
            && Later(s, t) && t.life == m.life && t.flow.next == m.flow.next
            && OnRecord(t.book, c) && t.book.kinds[c] == k
            && (a.0.Some? ==> c in t.flow.running && t.flow.running[c] == a.0.value)
            && (a.0.None? ==> c in t.flow.completed)
            && (a.1.Some? ==> t.book.channels[c] == Sent(a.1.value))
            && (a.1.None? && (a.0.Some? || !m.book.channels[c].Open?) ==> t.book.channels[c] == m.book.channels[c])
            && (c in t.book.acked <==> c in m.book.acked || pc.Acking?)
  {
    hide Later, Advance;
    t := LaterStep(s, m, Turns(c, Works(v)));
  }

  /** As long as a node's task loop runs and somebody holds its handle, whatever is
      queued or running: a new call of any kind can still be made, reach the peer, be
      acknowledged there and get any value for its answer. */
  lemma EveryCallCanSucceed(s: State, k: Kind, v: nat) returns (t: State)
    requires Reachable(s) && s.life.tasks.Active? && !s.life.handlesGone
    ensures var c := s.flow.next;
            && (exists es: seq<Event> :: Exec(s, es) == Some(t))
            && t.life == s.life && c in t.book.acked && c in t.book.channels && c < t.flow.next
            && Answer(t, c) == Some(Ok(if k.Spawned? then 0 else v))
  {
    var c := s.flow.next;
    ReachableInv(s);
    assert Later(s, s) by {
      assert Exec(s, []) == Some(s);
    }
    var m := StartsAll(s, s);
    hide Inv, Exec;
    assert Later(s, m);
    hide Later;
    m := StartsNew(s, m, k);
    m := TurnWorks(s, m, c, v);
    m := TurnWorks(s, m, c, v);
    m := TurnWorks(s, m, c, v);
    t := TurnWorks(s, m, c, v);
    Served(s, t, c);
  }

  lemma Served(s: State, t: State, c: Call)
    requires Later(s, t) && c < t.flow.next && c in t.book.channels
    requires c in t.flow.running || c in t.flow.completed
    ensures c !in t.flow.refused && c !in t.flow.sending
    ensures exists es: seq<Event> :: Exec(s, es) == Some(t)
  {
    OnePlace(t.flow, c);
  }
}
