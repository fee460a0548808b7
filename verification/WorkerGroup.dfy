/** Cancellation tokens and the worker group that shares one. */
module WorkerGroup {
  import opened Wire

  const ALREADY_SERVED: u32 := 27

  type Token = nat

  // ----- token trees ------------------------------------------------------------

  /** Every token but a root was made by `child_token` of an earlier one. */
  predicate Tree(parents: seq<Option<Token>>) {
    forall t: Token :: t < |parents| && parents[t].Some? ==> parents[t].value < t
  }

  /** A token is cancelled with itself or with any token it descends from. */
  predicate Cancelled(parents: seq<Option<Token>>, fired: set<Token>, t: Token)
    requires Tree(parents) && t < |parents|
    decreases t
  {
    t in fired || (parents[t].Some? && Cancelled(parents, fired, parents[t].value))
  }

  predicate Under(parents: seq<Option<Token>>, t: Token, a: Token)
    requires Tree(parents) && t < |parents|
    decreases t
  {
    t == a || (parents[t].Some? && Under(parents, parents[t].value, a))
  }

  /** Cancelling a token cancels its own subtree and nothing else. */
  lemma {:induction false} CancelReachesSubtree(parents: seq<Option<Token>>, fired: set<Token>, a: Token, t: Token)
    requires Tree(parents) && t < |parents|
    ensures Cancelled(parents, fired + {a}, t) <==> Cancelled(parents, fired, t) || Under(parents, t, a)
    decreases t
  {
    if parents[t].Some? {
      CancelReachesSubtree(parents, fired, a, parents[t].value);
    }
  }

  lemma {:induction false} DescendantsAreYounger(parents: seq<Option<Token>>, t: Token, a: Token)
    requires Tree(parents) && t < |parents| && Under(parents, t, a)
    ensures a <= t
    decreases t
  {
    if t != a {
      DescendantsAreYounger(parents, parents[t].value, a);
    }
  }

  /** Two tokens under which another lies are themselves one under the other. */
  lemma {:induction false} AncestorsAreOrdered(parents: seq<Option<Token>>, t: Token, a: Token, b: Token)
    requires Tree(parents) && t < |parents| && Under(parents, t, a) && Under(parents, t, b)
    ensures a < |parents| && b < |parents| && (Under(parents, a, b) || Under(parents, b, a))
    decreases t
  {
    DescendantsAreYounger(parents, t, a);
    DescendantsAreYounger(parents, t, b);
    if t != a && t != b {
      AncestorsAreOrdered(parents, parents[t].value, a, b);
    }
  }

  /** Each node is served under a child of the endpoint's token. A node that
      cancels its own token after a failed heartbeat leaves the endpoint, every
      other node and everything below the other nodes as they were. */
  lemma NodeFailureStaysLocal(parents: seq<Option<Token>>, fired: set<Token>, endpoint: Token, node: Token, t: Token)
    requires Tree(parents) && node < |parents| && parents[node] == Some(endpoint) && t < |parents|
    requires t == endpoint || exists other: Token ::
               other != node && other < |parents| && parents[other] == Some(endpoint) && Under(parents, t, other)
    ensures Cancelled(parents, fired + {node}, t) <==> Cancelled(parents, fired, t)
  {
    CancelReachesSubtree(parents, fired, node, t);
    if Under(parents, t, node) {
      if t == endpoint {
        DescendantsAreYounger(parents, t, node);
      } else {
        var other: Token :| other != node && other < |parents|
            && parents[other] == Some(endpoint) && Under(parents, t, other);
        AncestorsAreOrdered(parents, t, node, other);
        if Under(parents, node, other) {
          DescendantsAreYounger(parents, endpoint, other);
        } else {
          DescendantsAreYounger(parents, endpoint, node);
        }
      }
    }
  }

  /** The tree as the program keeps it; clones of a token are the same token. */
  class Tokens {
    var parents: seq<Option<Token>>
    var fired: set<Token>

    ghost predicate Valid()
      reads this
    {
      Tree(parents)
    }

    predicate IsCancelled(t: Token)
      requires Valid() && t < |parents|
      reads this
    {
      Cancelled(parents, fired, t)
    }

    constructor ()
      ensures Valid() && parents == [None] && fired == {} && !IsCancelled(0)
    {
      parents, fired := [None], {};
    }

    method Child(t: Token) returns (child: Token)
      requires Valid() && t < |parents|
      modifies this
      ensures Valid() && child == |old(parents)| && parents == old(parents) + [Some(t)] && fired == old(fired)
    {
      child := |parents|;
      parents := parents + [Some(t)];
    }

    method Cancel(t: Token)
      requires Valid() && t < |parents|
      modifies this
      ensures Valid() && parents == old(parents) && fired == old(fired) + {t}
      ensures forall u: Token :: u < |parents| ==> (IsCancelled(u) <==> old(IsCancelled(u)) || Under(parents, u, t))
    {
      ghost var before := fired;
      fired := fired + {t};
      forall u: Token | u < |parents|
        ensures IsCancelled(u) <==> Cancelled(parents, before, u) || Under(parents, u, t)
      {
        CancelReachesSubtree(parents, before, t, u);
      }
    }
  }

  // ----- the group -----------------------------------------------------------------

  /** How a spawned worker ends: it returns, or its task fails to join. */
  datatype Finish = Returned(result: Result<()>) | JoinFailed(error: CrabError)

  function Failure(f: Finish): Option<CrabError> {
    match f
    case Returned(Ok(_)) => None
    case Returned(Err(e)) => Some(e)
    case JoinFailed(e) => Some(e)
  }

  function FirstFailure(finishes: seq<Finish>): Option<CrabError> {
    if finishes == [] then None
    else if Failure(finishes[0]).Some? then Failure(finishes[0])
    else FirstFailure(finishes[1..])
  }

  lemma {:induction false} FirstFailureIs(finishes: seq<Finish>)
    ensures FirstFailure(finishes).None? <==> forall i :: 0 <= i < |finishes| ==> Failure(finishes[i]).None?
    ensures FirstFailure(finishes).Some? ==>
              exists i :: 0 <= i < |finishes| && Failure(finishes[i]) == FirstFailure(finishes)
                          && forall j :: 0 <= j < i ==> Failure(finishes[j]).None?
  {
    if finishes != [] {
      FirstFailureIs(finishes[1..]);
      if Failure(finishes[0]).None? {
        assert forall i :: 1 <= i < |finishes| ==> finishes[i] == finishes[1..][i - 1];
        if FirstFailure(finishes).Some? {
          var i :| 0 <= i < |finishes[1..]| && Failure(finishes[1..][i]) == FirstFailure(finishes[1..])
                   && forall j :: 0 <= j < i ==> Failure(finishes[1..][j]).None?;
          assert Failure(finishes[i + 1]) == FirstFailure(finishes);
        } else {
          forall i | 0 <= i < |finishes|
            ensures Failure(finishes[i]).None?
          {
            if i > 0 {
              assert finishes[i] == finishes[1..][i - 1];
            }
          }
        }
      } else {
        assert Failure(finishes[0]) == FirstFailure(finishes);
      }
    }
  }

  lemma {:induction false} FirstFailureOfMore(finishes: seq<Finish>, f: Finish)
    ensures FirstFailure(finishes + [f]) == if FirstFailure(finishes).Some? then FirstFailure(finishes) else Failure(f)
  {
    if finishes == [] {
      assert finishes + [f] == [f];
    } else {
      assert (finishes + [f])[1..] == finishes[1..] + [f];
      FirstFailureOfMore(finishes[1..], f);
    }
  }

  /** An order in which all of `n` workers end, each once. */
  ghost predicate Schedule(order: seq<nat>, n: nat) {
    && (forall i :: 0 <= i < |order| ==> order[i] < n)
    && (forall w: nat :: w < n ==> w in order)
    && (forall i, j :: 0 <= i < j < |order| ==> order[i] != order[j])
  }

  /** The running tasks of a join set; `ends` is how each will end and `order` the
      order in which the running ones finish, both up to the scheduler. */
  class JoinSet {
    const ends: seq<Finish>
    var order: seq<nat>
    var running: set<nat>

    ghost predicate Valid()
      reads this
    {
      && (forall w: nat :: w in running <==> w in order)
      && (forall i, j :: 0 <= i < j < |order| ==> order[i] != order[j])
      && (forall i :: 0 <= i < |order| ==> order[i] < |ends|)
    }

    constructor (ends: seq<Finish>, order: seq<nat>)
      requires Schedule(order, |ends|)
      ensures Valid() && this.ends == ends && this.order == order && running == set w | w in order
    {
      this.ends, this.order := ends, order;
      running := set w | w in order;
    }

    method JoinNext() returns (r: Option<Finish>)
      requires Valid()
      modifies this
      ensures Valid()
      ensures old(order) == [] ==> r == None && running == {} && order == []
      ensures old(order) != [] ==>
                && r == Some(ends[old(order)[0]]) && order == old(order)[1..]
                && running == old(running) - {old(order)[0]}
    {
      if order == [] {
        return None;
      }
      var w := order[0];
      r := Some(ends[w]);
      order := order[1..];
      running := running - {w};
      assert old(order) == [w] + order;
    }
  }

  function Ends(ends: seq<Finish>, order: seq<nat>): (r: seq<Finish>)
    requires forall i :: 0 <= i < |order| ==> order[i] < |ends|
    ensures |r| == |order|
  {
    seq(|order|, i requires 0 <= i < |order| => ends[order[i]])
  }

  /** Whatever the order, the group fails exactly when some worker failed. */
  lemma GroupFailsIff(ends: seq<Finish>, order: seq<nat>)
    requires Schedule(order, |ends|)
    ensures FirstFailure(Ends(ends, order)).None? <==> forall w :: 0 <= w < |ends| ==> Failure(ends[w]).None?
  {
    var all := Ends(ends, order);
    FirstFailureIs(all);
    if FirstFailure(all).None? {
      forall w | 0 <= w < |ends|
        ensures Failure(ends[w]).None?
      {
        assert (w as nat) in order;
        var i :| 0 <= i < |order| && order[i] == w;
        assert Failure(all[i]).None?;
      }
    } else {
      var i :| 0 <= i < |all| && Failure(all[i]) == FirstFailure(all);
      assert Failure(ends[order[i]]).Some?;
    }
  }

  /** Serves all workers under a child of the caller's token. Whatever they do and
      in whatever order they end, the group returns only when none is running;
      its result is the first failure in the order of ending; the shared token is
      cancelled exactly when some worker failed or the caller's token was; and no
      token that existed before is cancelled by it. */
  method Serve(tokens: Tokens, caller: Token, ends: seq<Finish>, order: seq<nat>)
    returns (r: Result<()>, group: JoinSet, shared: Token)
    requires tokens.Valid() && caller < |tokens.parents|
    requires Schedule(order, |ends|)
    requires forall t <- tokens.fired :: t < |tokens.parents|
    modifies tokens
    ensures fresh(group) && group.running == {}
    ensures r == match FirstFailure(Ends(ends, order)) case None => Ok(()) case Some(e) => Err(e)
    ensures r.Ok? <==> forall w :: 0 <= w < |ends| ==> Failure(ends[w]).None?
    ensures tokens.Valid() && shared == |old(tokens.parents)| && tokens.parents == old(tokens.parents) + [Some(caller)]
    ensures tokens.fired == old(tokens.fired) + if r.Err? then {shared} else {}
    ensures tokens.IsCancelled(shared) <==> r.Err? || old(tokens.IsCancelled(caller))
    ensures forall t: Token :: t < |old(tokens.parents)| ==> (tokens.IsCancelled(t) <==> old(tokens.IsCancelled(t)))
  {
    hide FirstFailure, Cancelled;
    group := new JoinSet(ends, order);
    shared := tokens.Child(caller);
    ghost var n := |tokens.parents| - 1;
    ghost var parents := tokens.parents;
    ghost var all := Ends(ends, order);
    var firstErr: Option<CrabError> := None;
    NothingFailedYet(all);
    ghost var joined := 0;
    var next := group.JoinNext();
    assert order != [] ==> next == Some(all[0]);
    while next.Some?
      invariant group.Valid() && group.ends == ends && tokens.Valid() && tokens.parents == parents && fresh(group)
      invariant joined <= |order| && (next.None? ==> joined == |order| && group.running == {})
      invariant next.Some? ==> joined < |order| && next == Some(all[joined]) && group.order == order[joined + 1..]
      invariant firstErr == FirstFailure(all[..joined])
      invariant tokens.fired == old(tokens.fired) + if firstErr.Some? then {shared} else {}
      decreases |order| - joined
    {
      FirstFailureOfMore(all[..joined], next.value);
      assert all[..joined + 1] == all[..joined] + [next.value];
      match next.value {
        case Returned(Err(e)) =>
          tokens.Cancel(shared);
          firstErr := Some(if firstErr.Some? then firstErr.value else e);
        case JoinFailed(e) =>
          tokens.Cancel(shared);
          firstErr := Some(if firstErr.Some? then firstErr.value else e);
        case Returned(Ok(_)) =>
      }
      joined := joined + 1;
      next := group.JoinNext();
    }
    assert all[..joined] == all;
    GroupFailsIff(ends, order);
    r := match firstErr case None => Ok(()) case Some(e) => Err(e);
    OldTokensUnmoved(old(tokens.parents), caller, old(tokens.fired), tokens.fired);
  }

  lemma NothingFailedYet(finishes: seq<Finish>)
    ensures FirstFailure(finishes[..0]) == None
  {
  }

  /** A new last token, fired or not, changes nothing for the others. */
  lemma OldTokensUnmoved(parents: seq<Option<Token>>, caller: Token, before: set<Token>, after: set<Token>)
    requires Tree(parents) && caller < |parents| && (forall t <- before :: t < |parents|)
    requires after == before || after == before + {|parents|}
    ensures Tree(parents + [Some(caller)])
    ensures forall t: Token :: t < |parents| ==>
              (Cancelled(parents + [Some(caller)], after, t) <==> Cancelled(parents, before, t))
    ensures Cancelled(parents + [Some(caller)], after, |parents|) <==>
            after != before || Cancelled(parents, before, caller)
  {
    forall t: Token | t < |parents|
      ensures Cancelled(parents + [Some(caller)], after, t) <==> Cancelled(parents, before, t)
    {
      OldTokenUnmoved(parents, caller, before, after, t);
    }
  }

  lemma {:induction false} OldTokenUnmoved(parents: seq<Option<Token>>, caller: Token, before: set<Token>,
                                           after: set<Token>, t: Token)
    requires Tree(parents) && Tree(parents + [Some(caller)]) && t < |parents|
    requires after == before || after == before + {|parents|}
    ensures Cancelled(parents + [Some(caller)], after, t) <==> Cancelled(parents, before, t)
    decreases t
  {
    if parents[t].Some? {
      OldTokenUnmoved(parents, caller, before, after, parents[t].value);
    }
  }

  // ----- a worker that serves once ------------------------------------------------------

  class OnceRunner<T> {
    var inner: Option<T>

    constructor (worker: T)
      ensures inner == Some(worker)
    {
      inner := Some(worker);
    }

    /** The first call runs the worker; every later call is refused. */
    method ServeOnce(run: T -> Result<()>) returns (r: Result<()>)
      modifies this
      ensures inner.None?
      ensures r == match old(inner) case Some(worker) => run(worker) case None => Err(ErrorCode(ALREADY_SERVED))
    {
      var taken := inner;
      inner := None;
      match taken
      case None => return Err(ErrorCode(ALREADY_SERVED));
      case Some(worker) => return run(worker);
    }
  }
}
