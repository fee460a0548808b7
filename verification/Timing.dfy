/** The heartbeat in discrete time, after the first beat. The opener sleeps for
    its interval between rounds; the answering side gives each whole round a
    deadline. A frame takes at most `delay` ticks one way; local steps take no
    time, so time stands still while one is due. */
module Timing {
  import opened Wire

  datatype Setting = Setting(interval: nat, delay: nat, timeout: nat)

  datatype Kind = BeatFrame | AckFrame

  datatype InFlight = InFlight(kind: Kind, sentAt: nat)

  datatype Opener = Sleeping(since: nat) | AwaitAnswer

  /** `FirstRound` still waits for the acknowledgement of the first beat, which
      has a deadline of its own. `start` is when the current round began. */
  datatype Answerer = FirstRound | AwaitBeat(start: nat) | AwaitAck(start: nat) | TimedOut | OutOfStep

  datatype State = State(now: nat, opener: Opener, silent: bool, answerer: Answerer,
                         toAnswerer: seq<InFlight>, toOpener: seq<InFlight>)

  /** The opener has just acknowledged the first beat. */
  const Initial := State(0, Sleeping(0), false, FirstRound, [InFlight(AckFrame, 0)], [])

  datatype Event = Tick | Wake | ArriveAtAnswerer | ArriveAtOpener | Expire | FallSilent

  predicate InRound(a: Answerer) {
    a.AwaitBeat? || a.AwaitAck?
  }

  /** Nothing in flight is due yet. */
  predicate MayTravel(w: seq<InFlight>, now: nat, delay: nat) {
    forall i :: 0 <= i < |w| ==> now < w[i].sentAt + delay
  }

  predicate Enabled(k: Setting, s: State, e: Event) {
    match e
    case Tick =>
      && MayTravel(s.toAnswerer, s.now, k.delay)
      && MayTravel(s.toOpener, s.now, k.delay)
      && (s.opener.Sleeping? && !s.silent ==> s.now < s.opener.since + k.interval)
      && (InRound(s.answerer) ==> s.now < s.answerer.start + k.timeout)
    case Wake => s.opener.Sleeping? && !s.silent && s.now >= s.opener.since + k.interval
    case ArriveAtAnswerer => s.toAnswerer != []
    case ArriveAtOpener => s.toOpener != []
    case Expire => InRound(s.answerer) && s.now >= s.answerer.start + k.timeout
    case FallSilent => !s.silent
  }

  function AnswererReceives(s: State, kind: Kind): State {
    match (s.answerer, kind)
    case (FirstRound, AckFrame) => s.(answerer := AwaitBeat(s.now))
    case (AwaitBeat(start), BeatFrame) =>
      s.(answerer := AwaitAck(start), toOpener := s.toOpener + [InFlight(BeatFrame, s.now)])
    case (AwaitAck(_), AckFrame) => s.(answerer := AwaitBeat(s.now))
    case (TimedOut, _) => s
    case _ => s.(answerer := OutOfStep)
  }

  function Apply(k: Setting, s: State, e: Event): State
    requires Enabled(k, s, e)
  {
    match e
    case Tick => s.(now := s.now + 1)
    case Wake => s.(opener := AwaitAnswer, toAnswerer := s.toAnswerer + [InFlight(BeatFrame, s.now)])
    case ArriveAtAnswerer =>
      var s' := s.(toAnswerer := s.toAnswerer[1..]);
      AnswererReceives(s', s.toAnswerer[0].kind)
    case ArriveAtOpener =>
      var s' := s.(toOpener := s.toOpener[1..]);
      if s.silent || !s.opener.AwaitAnswer? then s'
      else s'.(opener := Sleeping(s.now), toAnswerer := s.toAnswerer + [InFlight(AckFrame, s.now)])
    case Expire => s.(answerer := TimedOut)
    case FallSilent => s.(silent := true)
  }

  function Exec(k: Setting, s: State, es: seq<Event>): Option<State>
    decreases |es|
  {
    if es == [] then Some(s)
    else if Enabled(k, s, es[0]) then Exec(k, Apply(k, s, es[0]), es[1..])
    else None
  }

  // ----- while the opener is alive ---------------------------------------------

  predicate Fresh(f: InFlight, kind: Kind, now: nat, delay: nat) {
    f.kind == kind && f.sentAt <= now <= f.sentAt + delay
  }

  /** The acknowledgement of the round before last, on its way since `ackAt`. */
  predicate AckUnderway(k: Setting, s: State, ackAt: nat) {
    && s.toOpener == []
    && |s.toAnswerer| > 0
    && Fresh(s.toAnswerer[0], AckFrame, s.now, k.delay) && s.toAnswerer[0].sentAt == ackAt
    && (s.answerer.FirstRound? || (s.answerer.AwaitAck? && ackAt <= s.answerer.start + k.interval + 2 * k.delay))
  }

  /** Every moment of a live opener's run is one of these. */
  predicate Lively(k: Setting, s: State) {
    && !s.silent
    && if s.opener.Sleeping? then
         && s.opener.since <= s.now <= s.opener.since + k.interval
         && (|| (|s.toAnswerer| == 1 && AckUnderway(k, s, s.opener.since))
             || (s.toAnswerer == [] && s.toOpener == [] && s.answerer.AwaitBeat?
                 && s.opener.since <= s.answerer.start <= s.now))
       else
         || (|s.toAnswerer| == 2 && AckUnderway(k, s, s.toAnswerer[0].sentAt)
             && Fresh(s.toAnswerer[1], BeatFrame, s.now, k.delay)
             && s.toAnswerer[1].sentAt == s.toAnswerer[0].sentAt + k.interval)
         || (|s.toAnswerer| == 1 && s.toOpener == [] && s.answerer.AwaitBeat?
             && Fresh(s.toAnswerer[0], BeatFrame, s.now, k.delay)
             && s.toAnswerer[0].sentAt <= s.answerer.start + k.interval)
         || (s.toAnswerer == [] && |s.toOpener| == 1 && s.answerer.AwaitAck?
             && Fresh(s.toOpener[0], BeatFrame, s.now, k.delay)
             && s.toOpener[0].sentAt <= s.answerer.start + k.interval + k.delay)
  }

  lemma LivelyStep(k: Setting, s: State, e: Event)
    requires k.interval + 3 * k.delay < k.timeout
    requires Lively(k, s) && Enabled(k, s, e) && e != FallSilent
    ensures Lively(k, Apply(k, s, e))
  {
  }

  lemma {:induction false} LivelyRun(k: Setting, s: State, es: seq<Event>, t: State)
    requires k.interval + 3 * k.delay < k.timeout
    requires Lively(k, s) && FallSilent !in es && Exec(k, s, es) == Some(t)
    ensures Lively(k, t)
    decreases |es|
  {
    hide Lively, Enabled, Apply;
    if es != [] {
      LivelyStep(k, s, es[0]);
      LivelyRun(k, Apply(k, s, es[0]), es[1..], t);
    }
  }

  // ----- and if the margin is too small ------------------------------------------

  /** A run in which every frame takes its full delay, seen at any moment of the
      round that began at time 0. */
  predicate Slow(k: Setting, s: State) {
    var i, d := k.interval, k.delay;
    && !s.silent && s.now <= k.timeout
    && ( (s == State(s.now, Sleeping(0), false, AwaitBeat(0), [], [])
          && s.now <= i)
      || (s == State(s.now, AwaitAnswer, false, AwaitBeat(0), [InFlight(BeatFrame, i)], [])
          && i <= s.now <= i + d)
      || (s == State(s.now, AwaitAnswer, false, AwaitAck(0), [], [InFlight(BeatFrame, i + d)])
          && i + d <= s.now <= i + 2 * d)
      || (s == State(s.now, Sleeping(i + 2 * d), false, AwaitAck(0), [InFlight(AckFrame, i + 2 * d)], [])
          && i + 2 * d <= s.now <= i + 2 * d + i)
      || (s == State(s.now, AwaitAnswer, false, AwaitAck(0),
                     [InFlight(AckFrame, i + 2 * d), InFlight(BeatFrame, i + 2 * d + i)], [])
          && i + 2 * d + i <= s.now))
  }

  /** How many instantaneous steps the slow round still has before it. */
  function StepsLeft(s: State): nat {
    if s.answerer.AwaitBeat? then (if s.opener.Sleeping? then 4 else 3)
    else if s.toOpener != [] then 2
    else if s.opener.Sleeping? then 1
    else 0
  }

  function SlowChoice(k: Setting, s: State): Event {
    var i, d := k.interval, k.delay;
    if s.now >= k.timeout then Expire
    else if s.answerer.AwaitBeat? && s.opener.Sleeping? then (if s.now < i then Tick else Wake)
    else if s.answerer.AwaitBeat? then (if s.now < i + d then Tick else ArriveAtAnswerer)
    else if s.toOpener != [] then (if s.now < i + 2 * d then Tick else ArriveAtOpener)
    else if s.opener.Sleeping? then (if s.now < i + 2 * d + i then Tick else Wake)
    else Tick
  }

  lemma SlowStep(k: Setting, s: State)
    requires k.timeout <= k.interval + 3 * k.delay && Slow(k, s)
    ensures var e := SlowChoice(k, s);
            && Enabled(k, s, e) && e != FallSilent
            && (if e.Expire? then Apply(k, s, e).answerer.TimedOut?
                else Slow(k, Apply(k, s, e))
                     && (if e.Tick? then Apply(k, s, e).now == s.now + 1
                         else Apply(k, s, e).now == s.now && StepsLeft(Apply(k, s, e)) < StepsLeft(s)))
  {
  }

  lemma {:induction false} SlowRunExpires(k: Setting, s: State) returns (es: seq<Event>, t: State)
    requires k.timeout <= k.interval + 3 * k.delay && Slow(k, s)
    ensures FallSilent !in es && Exec(k, s, es) == Some(t) && t.answerer.TimedOut?
    decreases k.timeout - s.now, StepsLeft(s)
  {
    SlowStep(k, s);
    hide Slow, Enabled, Apply, SlowChoice, StepsLeft;
    var e := SlowChoice(k, s);
    if e.Expire? {
      es, t := [e], Apply(k, s, e);
      assert Exec(k, t, es[1..]) == Some(t);
    } else {
      assert s.now < k.timeout by {
        SlowBeforeTimeout(k, s);
      }
      var rest;
      rest, t := SlowRunExpires(k, Apply(k, s, e));
      es := [e] + rest;
      assert es[1..] == rest;
    }
  }

  lemma SlowBeforeTimeout(k: Setting, s: State)
    requires Slow(k, s) && !SlowChoice(k, s).Expire?
    ensures s.now < k.timeout
  {
  }

  ghost predicate SomeRunExpires(k: Setting) {
    exists es :: FallSilent !in es && Exec(k, Initial, es).Some? && Exec(k, Initial, es).value.answerer.TimedOut?
  }

  /** The answering side can run into its deadline against a live opener if and
      only if the opener's interval and three one-way delays reach it. */
  lemma DeadlineSafeIff(k: Setting)
    ensures !SomeRunExpires(k) <==> k.interval + 3 * k.delay < k.timeout
  {
    if k.interval + 3 * k.delay < k.timeout {
      forall es | FallSilent !in es && Exec(k, Initial, es).Some?
        ensures !Exec(k, Initial, es).value.answerer.TimedOut?
      {
        LivelyRun(k, Initial, es, Exec(k, Initial, es).value);
      }
    } else {
      var start := State(0, Sleeping(0), false, AwaitBeat(0), [], []);
      assert Enabled(k, Initial, ArriveAtAnswerer) && Apply(k, Initial, ArriveAtAnswerer) == start;
      var es, t := SlowRunExpires(k, start);
      var whole := [ArriveAtAnswerer] + es;
      assert whole[1..] == es;
      assert Exec(k, Initial, whole) == Some(t);
    }
  }

  /** With the defaults of 15 and 30 seconds, delays below 5 seconds are safe. */
  lemma DefaultMargin(delay: nat)
    ensures !SomeRunExpires(Setting(15, delay, 30)) <==> delay < 5
  {
    DeadlineSafeIff(Setting(15, delay, 30));
  }

  // ----- if the opener falls silent --------------------------------------------------

  /** What is on its way always is what its receiver waits for next, whatever the
      interval, the delays and the deadline, and whenever the opener falls silent. */
  predicate InStep(s: State) {
    var w := s.toAnswerer;
    var acked := |w| >= 1 && w[0].kind.AckFrame? && (s.answerer.FirstRound? || s.answerer.AwaitAck?);
    || s.answerer.TimedOut?
    || (s.toOpener == [] && s.opener.Sleeping? && ((acked && |w| == 1) || (w == [] && s.answerer.AwaitBeat?)))
    || (s.toOpener == [] && s.opener.AwaitAnswer? && acked && |w| == 2 && w[1].kind.BeatFrame?)
    || (s.toOpener == [] && s.opener.AwaitAnswer? && |w| == 1 && w[0].kind.BeatFrame? && s.answerer.AwaitBeat?)
    || (s.opener.AwaitAnswer? && w == [] && s.answerer.AwaitAck?
        && ((|s.toOpener| == 1 && s.toOpener[0].kind.BeatFrame?) || (s.silent && s.toOpener == [])))
  }

  /** Frames were sent in the past and are not overdue; a round that has begun has
      not outlived its deadline. */
  predicate InTime(k: Setting, s: State) {
    && (forall f <- s.toAnswerer :: f.sentAt <= s.now <= f.sentAt + k.delay)
    && (InRound(s.answerer) ==> s.answerer.start <= s.now <= s.answerer.start + k.timeout)
  }

  /** Since the opener fell silent at `x` it has sent nothing. */
  predicate QuietSince(k: Setting, s: State, x: nat) {
    && s.silent && (forall f <- s.toAnswerer :: f.sentAt <= x)
    && (InRound(s.answerer) ==> s.answerer.start <= x + k.delay)
  }

  lemma StepStaysInStep(k: Setting, s: State, e: Event)
    requires InStep(s) && Enabled(k, s, e)
    ensures InStep(Apply(k, s, e))
  {
  }

  lemma StepStaysInTime(k: Setting, s: State, e: Event)
    requires InTime(k, s) && Enabled(k, s, e)
    ensures InTime(k, Apply(k, s, e))
  {
  }

  lemma StepStaysQuiet(k: Setting, s: State, e: Event, x: nat)
    requires InTime(k, s) && QuietSince(k, s, x) && Enabled(k, s, e)
    ensures QuietSince(k, Apply(k, s, e), x)
  {
  }

  lemma {:induction false} RunStaysInStep(k: Setting, s: State, es: seq<Event>, t: State)
    requires InStep(s) && InTime(k, s) && Exec(k, s, es) == Some(t)
    ensures InStep(t) && InTime(k, t)
    decreases |es|
  {
    hide InStep, InTime, Enabled, Apply;
    if es != [] {
      StepStaysInStep(k, s, es[0]);
      StepStaysInTime(k, s, es[0]);
      RunStaysInStep(k, Apply(k, s, es[0]), es[1..], t);
    }
  }

  lemma {:induction false} RunStaysQuiet(k: Setting, s: State, es: seq<Event>, t: State, x: nat)
    requires InTime(k, s) && QuietSince(k, s, x) && Exec(k, s, es) == Some(t)
    ensures QuietSince(k, t, x)
    decreases |es|
  {
    hide QuietSince, InTime, Enabled, Apply;
    if es != [] {
      StepStaysInTime(k, s, es[0]);
      StepStaysQuiet(k, s, es[0], x);
      RunStaysQuiet(k, Apply(k, s, es[0]), es[1..], t, x);
    }
  }

  /** In no run at all does a side meet a frame it does not expect: until the
      deadline passes, what arrives next is what its receiver waits for. */
  lemma NeverOutOfStep(k: Setting, es: seq<Event>, t: State)
    requires Exec(k, Initial, es) == Some(t)
    ensures !t.answerer.OutOfStep?
    ensures t.toAnswerer != [] && !t.answerer.TimedOut? ==>
              t.toAnswerer[0].kind == if t.answerer.AwaitBeat? then BeatFrame else AckFrame
    ensures t.toOpener != [] && !t.answerer.TimedOut? ==> t.toOpener[0].kind.BeatFrame? && t.opener.AwaitAnswer?
  {
    hide Exec;
    RunStaysInStep(k, Initial, es, t);
  }

  /** Whatever is on its way when the opener falls silent, in whatever round: once
      one delay and one timeout have passed since, the answering side has run into
      its deadline. */
  lemma SilenceIsNoticed(k: Setting, before: seq<Event>, s: State, after: seq<Event>, t: State)
    requires Exec(k, Initial, before) == Some(s) && Enabled(k, s, FallSilent)
    requires Exec(k, Apply(k, s, FallSilent), after) == Some(t)
    ensures t.now > s.now + k.delay + k.timeout ==> t.answerer.TimedOut?
  {
    hide Exec;
    RunStaysInStep(k, Initial, before, s);
    var s' := Apply(k, s, FallSilent);
    assert InStep(s') && InTime(k, s') && QuietSince(k, s', s.now);
    RunStaysInStep(k, s', after, t);
    RunStaysQuiet(k, s', after, t, s.now);
  }

  /** What comes next once the opener is silent. */
  function SilentChoice(k: Setting, s: State): Event {
    if s.toAnswerer != [] then ArriveAtAnswerer
    else if s.toOpener != [] then ArriveAtOpener
    else if InRound(s.answerer) && s.now >= s.answerer.start + k.timeout then Expire
    else Tick
  }

  lemma SilentStep(k: Setting, s: State)
    requires InStep(s) && InTime(k, s) && s.silent && !s.answerer.TimedOut?
    ensures s.toAnswerer == [] && s.toOpener == [] ==> InRound(s.answerer)
    ensures var e := SilentChoice(k, s);
            && Enabled(k, s, e)
            && Apply(k, s, e).silent
            && (e.ArriveAtAnswerer? ==> |Apply(k, s, e).toAnswerer| < |s.toAnswerer|)
            && (e.ArriveAtOpener? ==> Apply(k, s, e).toAnswerer == [] && |Apply(k, s, e).toOpener| < |s.toOpener|)
            && (e.Expire? ==> Apply(k, s, e).answerer.TimedOut?)
            && (e.Tick? ==> Apply(k, s, e) == s.(now := s.now + 1))
  {
  }

  lemma {:induction false} SilentRunEnds(k: Setting, s: State) returns (es: seq<Event>, t: State)
    requires InStep(s) && InTime(k, s) && s.silent
    ensures Exec(k, s, es) == Some(t) && t.answerer.TimedOut?
    decreases |s.toAnswerer|, |s.toOpener|, if InRound(s.answerer) then s.answerer.start + k.timeout - s.now else 0
  {
    if s.answerer.TimedOut? {
      return [], s;
    }
    SilentStep(k, s);
    var e := SilentChoice(k, s);
    StepStaysInStep(k, s, e);
    StepStaysInTime(k, s, e);
    hide InStep, InTime, Enabled, Apply;
    var m := Apply(k, s, e);
    if e.Expire? {
      es, t := [e], m;
      assert Exec(k, m, es[1..]) == Some(m);
    } else {
      var rest;
      rest, t := SilentRunEnds(k, m);
      es := [e] + rest;
      assert es[1..] == rest;
    }
  }

  /** The opener may fall silent at any moment of any run, and the run can then always
      go on to the deadline: nothing left in flight keeps time from reaching it. */
  lemma SilenceCanBeNoticed(k: Setting, before: seq<Event>, s: State) returns (after: seq<Event>, t: State)
    requires Exec(k, Initial, before) == Some(s) && !s.silent
    ensures after != [] && after[0] == FallSilent && Exec(k, s, after) == Some(t) && t.answerer.TimedOut?
  {
    RunStaysInStep(k, Initial, before, s);
    StepStaysInStep(k, s, FallSilent);
    StepStaysInTime(k, s, FallSilent);
    hide InStep, InTime;
    assert Enabled(k, s, FallSilent) && Apply(k, s, FallSilent).silent;
    var rest;
    rest, t := SilentRunEnds(k, Apply(k, s, FallSilent));
    after := [FallSilent] + rest;
    assert after[1..] == rest;
  }
}
