/** Bidirectional copying between a stream and a socket: two copy loops that run
    beside each other, each shutting its writer down when its reader ends. */
module TcpForward {
  import opened Wire

  datatype Side = FromStream | FromSocket

  datatype Item = Byte(b: byte) | Shutdown

  datatype Phase = Copying | Closing(ok: bool) | Finished(ok: bool)

  /** `input` is all the reader will ever deliver; `taken` of it have been read,
      the last `buffer` of these are not yet written. */
  datatype Loop = Loop(input: seq<byte>, taken: nat, buffer: seq<byte>, output: seq<Item>, phase: Phase)

  datatype State = State(fromStream: Loop, fromSocket: Loop, cancelled: bool, returned: bool)

  function Start(input: seq<byte>): Loop {
    Loop(input, 0, [], [], Copying)
  }

  function Initial(fromStream: seq<byte>, fromSocket: seq<byte>): State {
    State(Start(fromStream), Start(fromSocket), false, false)
  }

  datatype Event =
    | Read(side: Side, n: nat)
    | Write(side: Side, n: nat)
    | ReadsEnd(side: Side)
    | Fails(side: Side)
    | Shut(side: Side)
    | Cancel
    | Return

  function Get(s: State, x: Side): Loop {
    if x.FromStream? then s.fromStream else s.fromSocket
  }

  function Put(s: State, x: Side, l: Loop): State {
    s.(fromStream := if x.FromStream? then l else s.fromStream, fromSocket := if x.FromSocket? then l else s.fromSocket)
  }

  predicate LoopEnabled(l: Loop, e: Event)
    requires !e.Cancel? && !e.Return?
  {
    match e
    case Read(_, n) => l.phase.Copying? && l.buffer == [] && 0 < n && l.taken + n <= |l.input|
    case Write(_, n) => l.phase.Copying? && 0 < n <= |l.buffer|
    case ReadsEnd(_) => l.phase.Copying? && l.buffer == [] && l.taken == |l.input|
    case Fails(_) => l.phase.Copying?
    case Shut(_) => l.phase.Closing?
  }

  predicate Enabled(s: State, e: Event) {
    match e
    case Cancel => !s.cancelled
    // `select!` returns at once when cancelled, else when both loops have joined.
    case Return => !s.returned && (s.cancelled || (s.fromStream.phase.Finished? && s.fromSocket.phase.Finished?))
    case _ => !s.returned && LoopEnabled(Get(s, e.side), e)
  }

  function Items(b: seq<byte>): (r: seq<Item>)
    ensures |r| == |b|
  {
    seq(|b|, i requires 0 <= i < |b| => Byte(b[i]))
  }

  function LoopAfter(l: Loop, e: Event): Loop
    requires !e.Cancel? && !e.Return? && LoopEnabled(l, e)
  {
    match e
    case Read(_, n) => l.(taken := l.taken + n, buffer := l.input[l.taken..l.taken + n])
    case Write(_, n) => l.(buffer := l.buffer[n..], output := l.output + Items(l.buffer[..n]))
    case ReadsEnd(_) => l.(phase := Closing(true))
    case Fails(_) => l.(phase := Closing(false))
    case Shut(_) => l.(phase := Finished(l.phase.ok), output := l.output + [Shutdown])
  }

  function Apply(s: State, e: Event): State
    requires Enabled(s, e)
  {
    match e
    case Cancel => s.(cancelled := true)
    case Return => s.(returned := true)
    case _ => Put(s, e.side, LoopAfter(Get(s, e.side), e))
  }

  function Exec(s: State, es: seq<Event>): Option<State>
    decreases |es|
  {
    if es == [] then Some(s)
    else if Enabled(s, es[0]) then Exec(Apply(s, es[0]), es[1..])
    else None
  }

  // ----- what every step keeps -----------------------------------------------------

  /** How many bytes of its input a loop has passed on. */
  function Passed(l: Loop): int {
    l.taken - |l.buffer|
  }

  predicate LoopInv(l: Loop) {
    && 0 <= Passed(l) <= l.taken <= |l.input| && l.buffer == l.input[Passed(l)..l.taken]
    && l.output == Items(l.input[..Passed(l)]) + (if l.phase.Finished? then [Shutdown] else [])
    && ((l.phase.Closing? || l.phase.Finished?) && l.phase.ok ==> Passed(l) == |l.input|)
  }

  predicate Inv(s: State) {
    && LoopInv(s.fromStream) && LoopInv(s.fromSocket)
    && (s.returned ==> s.cancelled || (s.fromStream.phase.Finished? && s.fromSocket.phase.Finished?))
  }

  lemma WriteKeepsLoop(l: Loop, e: Event)
    requires LoopInv(l) && e.Write? && LoopEnabled(l, e)
    ensures LoopInv(LoopAfter(l, e)) && LoopAfter(l, e).input == l.input
  {
    var p := Passed(l);
    assert l.buffer[..e.n] == l.input[p..p + e.n];
    assert l.input[..p] + l.input[p..p + e.n] == l.input[..p + e.n];
    assert Items(l.input[..p]) + Items(l.input[p..p + e.n]) == Items(l.input[..p + e.n]);
    assert l.buffer[e.n..] == l.input[p + e.n..l.taken];
  }

  lemma StepKeepsLoop(l: Loop, e: Event)
    requires LoopInv(l) && !e.Cancel? && !e.Return? && LoopEnabled(l, e)
    ensures LoopInv(LoopAfter(l, e)) && LoopAfter(l, e).input == l.input
  {
    if e.Write? {
      WriteKeepsLoop(l, e);
    }
  }

  lemma StepKeepsInv(s: State, e: Event)
    requires Inv(s) && Enabled(s, e)
    ensures Inv(Apply(s, e))
    ensures Apply(s, e).fromStream.input == s.fromStream.input && Apply(s, e).fromSocket.input == s.fromSocket.input
  {
    hide LoopInv, LoopEnabled, LoopAfter;
    if !e.Cancel? && !e.Return? {
      StepKeepsLoop(Get(s, e.side), e);
    }
  }

  lemma {:induction false} RunKeepsInv(s: State, es: seq<Event>)
    requires Inv(s) && Exec(s, es).Some?
    ensures var t := Exec(s, es).value;
            Inv(t) && t.fromStream.input == s.fromStream.input && t.fromSocket.input == s.fromSocket.input
    decreases |es|
  {
    hide Inv, Apply, Enabled;
    if es != [] {
      StepKeepsInv(s, es[0]);
      RunKeepsInv(Apply(s, es[0]), es[1..]);
    }
  }

  // ----- the promises ---------------------------------------------------------------

  lemma ReachedLoop(a: seq<byte>, b: seq<byte>, es: seq<Event>, x: Side) returns (l: Loop)
    requires Exec(Initial(a, b), es).Some?
    ensures l == Get(Exec(Initial(a, b), es).value, x) && LoopInv(l) && l.input == (if x.FromStream? then a else b)
    ensures Inv(Exec(Initial(a, b), es).value)
  {
    hide Exec, Apply, Enabled;
    var s := Initial(a, b);
    assert Items([]) == [];
    assert Inv(s);
    RunKeepsInv(s, es);
    l := Get(Exec(s, es).value, x);
  }

  /** In every run, what each writer has been given is a prefix of what the other
      side's reader delivers, with one shutdown, after its last byte, once the loop
      has finished. */
  lemma OutputsArePrefixes(a: seq<byte>, b: seq<byte>, es: seq<Event>, x: Side)
    requires Exec(Initial(a, b), es).Some?
    ensures var l := Get(Exec(Initial(a, b), es).value, x);
            var input := if x.FromStream? then a else b;
            exists n: nat :: n <= |input|
                             && l.output == Items(input[..n]) + if l.phase.Finished? then [Shutdown] else []
  {
    hide Exec, Apply, Enabled, Initial, Inv, Items;
    var l := ReachedLoop(a, b, es, x);
    var n: nat := Passed(l);
    assert l.output == Items(l.input[..n]) + if l.phase.Finished? then [Shutdown] else [];
  }

  /** When the call returns without having been cancelled, both writers have been
      shut down; a side whose copying met no error was given its whole input. */
  lemma UncancelledIsComplete(a: seq<byte>, b: seq<byte>, es: seq<Event>, x: Side)
    requires Exec(Initial(a, b), es).Some?
    requires Exec(Initial(a, b), es).value.returned && !Exec(Initial(a, b), es).value.cancelled
    ensures var l := Get(Exec(Initial(a, b), es).value, x);
            var input := if x.FromStream? then a else b;
            l.phase.Finished? && (l.phase.ok ==> l.output == Items(input) + [Shutdown])
  {
    hide Exec, Apply, Enabled, Initial, Items;
    var l := ReachedLoop(a, b, es, x);
    assert l.input[..|l.input|] == l.input;
  }

  /** The steps still ahead of a loop that meets no error. */
  function Ahead(l: Loop): int {
    if l.phase.Finished? then 0
    else if l.phase.Closing? then 1
    else 2 + 2 * (|l.input| - l.taken) + |l.buffer|
  }

  /** Until the call returns, a loop that has not finished can always go on,
      whatever the other loop does or has ended with; each step of its own brings
      it nearer to its end and leaves the other loop as it was. So the end of one
      direction never stops the other. */
  lemma DirectionsAreIndependent(s: State, x: Side, e: Event)
    requires Inv(s) && !s.returned
    ensures Ahead(Get(s, x)) >= 0
    ensures !Get(s, x).phase.Finished? ==>
              exists n: nat :: Enabled(s, Read(x, n)) || Enabled(s, Write(x, n))
                               || Enabled(s, ReadsEnd(x)) || Enabled(s, Shut(x))
    ensures Enabled(s, e) && !e.Cancel? && !e.Return? && e.side == x ==>
              && Ahead(Get(Apply(s, e), x)) < Ahead(Get(s, x))
              && (forall y: Side :: y != x ==> Get(Apply(s, e), y) == Get(s, y))
    ensures Enabled(s, e) && !e.Cancel? && !e.Return? && e.side != x ==> Get(Apply(s, e), x) == Get(s, x)
  {
    var l := Get(s, x);
    assert LoopInv(l);
    if !l.phase.Finished? {
      if l.buffer != [] && l.phase.Copying? {
        assert Enabled(s, Write(x, |l.buffer|));
      } else if l.phase.Copying? && l.taken < |l.input| {
        assert Enabled(s, Read(x, 1));
      } else {
        assert Enabled(s, ReadsEnd(x)) || Enabled(s, Shut(x));
        assert Enabled(s, Read(x, 0)) || Enabled(s, ReadsEnd(x)) || Enabled(s, Shut(x));
      }
    }
  }

  // ----- runs that do return -------------------------------------------------------

  lemma {:induction false} ExecJoins(s: State, es: seq<Event>, fs: seq<Event>)
    requires Exec(s, es).Some?
    ensures Exec(s, es + fs) == Exec(Exec(s, es).value, fs)
    decreases |es|
  {
    hide Enabled, Apply;
    if es == [] {
      assert [] + fs == fs;
    } else {
      assert (es + fs)[1..] == es[1..] + fs;
      ExecJoins(Apply(s, es[0]), es[1..], fs);
    }
  }

  /** A loop whose input is passed on in one piece and shut down. */
  lemma RunsToItsEnd(s: State, x: Side) returns (es: seq<Event>)
    requires !s.returned && Get(s, x) == Start(Get(s, x).input)
    ensures var input := Get(s, x).input;
            Exec(s, es) == Some(Put(s, x, Loop(input, |input|, [], Items(input) + [Shutdown], Finished(true))))
  {
    hide Items;
    var input, n := Get(s, x).input, |Get(s, x).input|;
    es := LoopReads(s, x, n);
    assert input[..n] == input;
    var r := Put(s, x, Loop(input, n, [], Items(input), Copying));
    var c := Put(s, x, Loop(input, n, [], Items(input), Closing(true)));
    assert Enabled(r, ReadsEnd(x)) && Apply(r, ReadsEnd(x)) == c;
    OneStep(c, Shut(x));
    assert [ReadsEnd(x), Shut(x)][1..] == [Shut(x)];
    ExecJoins(s, es, [ReadsEnd(x), Shut(x)]);
    es := es + [ReadsEnd(x), Shut(x)];
  }

  /** Whatever the two sides deliver, the call can return, uncancelled, with each
      writer given all of it and then shut down. */
  lemma BothArriveWhole(a: seq<byte>, b: seq<byte>) returns (es: seq<Event>, t: State)
    ensures Exec(Initial(a, b), es) == Some(t) && t.returned && !t.cancelled
    ensures t.fromStream.output == Items(a) + [Shutdown] && t.fromSocket.output == Items(b) + [Shutdown]
  {
    hide Exec, Items;
    var s := Initial(a, b);
    var es1 := RunsToItsEnd(s, FromStream);
    var m := Exec(s, es1).value;
    var es2 := RunsToItsEnd(m, FromSocket);
    ExecJoins(s, es1, es2);
    var u := Exec(m, es2).value;
    t := u.(returned := true);
    assert Enabled(u, Return) && Apply(u, Return) == t;
    OneStep(u, Return);
    ExecJoins(s, es1 + es2, [Return]);
    es := es1 + es2 + [Return];
  }

  lemma OneStep(s: State, e: Event)
    requires Enabled(s, e)
    ensures Exec(s, [e]) == Some(Apply(s, e))
  {
    hide Enabled, Apply;
    assert Exec(Apply(s, e), []) == Some(Apply(s, e));
  }

  /** The call returns when it is cancelled or both loops have ended, and then no
      loop goes on: the writers keep just what they had been given when it did. */
  lemma ReturnsIff(a: seq<byte>, b: seq<byte>, es: seq<Event>, f: Event)
    requires Exec(Initial(a, b), es).Some?
    ensures var s := Exec(Initial(a, b), es).value;
            Exec(s, [Return]) == (if !s.returned && (Cancel in es
                                                     || (s.fromStream.phase.Finished? && s.fromSocket.phase.Finished?))
                                  then Some(s.(returned := true)) else None)
    ensures var s := Exec(Initial(a, b), es).value;
            s.returned <==> Return in es
    ensures var s := Exec(Initial(a, b), es).value;
            s.returned && Enabled(s, f) ==> f.Cancel? && Apply(s, f) == s.(cancelled := true)
  {
    var s := Exec(Initial(a, b), es).value;
    FlagsTell(Initial(a, b), es);
    assert Enabled(s, Return) ==> Exec(Apply(s, Return), []) == Some(Apply(s, Return));
  }

  lemma {:induction false} FlagsTell(s: State, es: seq<Event>)
    requires Exec(s, es).Some?
    ensures Exec(s, es).value.cancelled <==> s.cancelled || Cancel in es
    ensures Exec(s, es).value.returned <==> s.returned || Return in es
    decreases |es|
  {
    hide LoopEnabled, LoopAfter;
    if es != [] {
      var e, t := es[0], Apply(s, es[0]);
      assert t.cancelled <==> s.cancelled || e == Cancel;
      assert t.returned <==> s.returned || e == Return;
      assert es == [e] + es[1..];
      FlagsTell(t, es[1..]);
    }
  }

  lemma LoopReads(s: State, x: Side, n: nat) returns (es: seq<Event>)
    requires !s.returned && Get(s, x) == Start(Get(s, x).input) && n <= |Get(s, x).input|
    ensures var input := Get(s, x).input;
            Exec(s, es) == Some(Put(s, x, Loop(input, n, [], Items(input[..n]), Copying)))
  {
    var input := Get(s, x).input;
    var t := Put(s, x, Loop(input, n, [], Items(input[..n]), Copying));
    if n == 0 {
      es := [];
      assert Items(input[..0]) == [] && s == t;
    } else {
      var m := Put(s, x, Loop(input, n, input[..n], [], Copying));
      assert input[0..n] == input[..n];
      assert Enabled(s, Read(x, n)) && Apply(s, Read(x, n)) == m;
      assert input[..n][..n] == input[..n] && input[..n][n..] == [] && [] + Items(input[..n]) == Items(input[..n]);
      assert Enabled(m, Write(x, n)) && Apply(m, Write(x, n)) == t;
      es := [Read(x, n), Write(x, n)];
      assert es[1..] == [Write(x, n)];
      OneStep(m, Write(x, n));
    }
  }

  lemma LoopBreaks(s: State, x: Side) returns (es: seq<Event>)
    requires !s.returned && Get(s, x).phase.Copying?
    ensures var l := Get(s, x);
            Exec(s, es) == Some(Put(s, x, l.(phase := Finished(false), output := l.output + [Shutdown])))
  {
    var l := Get(s, x);
    var c := Put(s, x, l.(phase := Closing(false)));
    assert Enabled(s, Fails(x)) && Apply(s, Fails(x)) == c;
    OneStep(c, Shut(x));
    es := [Fails(x), Shut(x)];
    assert es[1..] == [Shut(x)];
  }

  /** One direction may fail after any part of its input has been passed on: its writer
      is shut down all the same, and the other direction still delivers everything. */
  lemma FailureStaysLocal(a: seq<byte>, b: seq<byte>, n: nat) returns (es: seq<Event>, t: State)
    requires n <= |a|
    ensures Exec(Initial(a, b), es) == Some(t) && t.returned && !t.cancelled && t.fromStream.phase == Finished(false)
    ensures t.fromStream.output == Items(a[..n]) + [Shutdown] && t.fromSocket.output == Items(b) + [Shutdown]
  {
    hide Exec, Items;
    var s := Initial(a, b);
    var es1 := LoopReads(s, FromStream, n);
    var m1 := Exec(s, es1).value;
    var es2 := LoopBreaks(m1, FromStream);
    ExecJoins(s, es1, es2);
    var m2 := Exec(m1, es2).value;
    var es3 := RunsToItsEnd(m2, FromSocket);
    ExecJoins(s, es1 + es2, es3);
    var u := Exec(m2, es3).value;
    t := u.(returned := true);
    assert Enabled(u, Return) && Apply(u, Return) == t;
    OneStep(u, Return);
    ExecJoins(s, es1 + es2 + es3, [Return]);
    es := es1 + es2 + es3 + [Return];
  }

  /** A cancellation may come after any parts of the two inputs; neither writer is shut
      down then. */
  lemma CancelledAnywhere(a: seq<byte>, b: seq<byte>, n: nat, m: nat) returns (es: seq<Event>, t: State)
    requires n <= |a| && m <= |b|
    ensures Exec(Initial(a, b), es) == Some(t) && t.returned && t.cancelled
    ensures t.fromStream.output == Items(a[..n]) && t.fromSocket.output == Items(b[..m])
  {
    hide Exec, Items;
    var s := Initial(a, b);
    var es1 := LoopReads(s, FromStream, n);
    var m1 := Exec(s, es1).value;
    var es2 := LoopReads(m1, FromSocket, m);
    ExecJoins(s, es1, es2);
    var u := Exec(m1, es2).value;
    OneStep(u, Cancel);
    ExecJoins(s, es1 + es2, [Cancel]);
    t := u.(cancelled := true, returned := true);
    OneStep(u.(cancelled := true), Return);
    ExecJoins(s, es1 + es2 + [Cancel], [Return]);
    es := es1 + es2 + [Cancel] + [Return];
  }
}
