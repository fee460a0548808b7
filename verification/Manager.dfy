/** The registry of connected nodes. */
module Manager {
  import opened Wire

  type NodeId = Text

  // ----- the registry as a value ---------------------------------------------

  function Inserted<H>(nodes: map<NodeId, H>, id: NodeId, handle: H): map<NodeId, H> {
    nodes[id := handle]
  }

  function Removed<H>(nodes: map<NodeId, H>, id: NodeId): map<NodeId, H> {
    nodes - {id}
  }

  predicate Exists<H>(nodes: map<NodeId, H>, id: NodeId) {
    id in nodes
  }

  // ----- the registry by its history -------------------------------------------

  datatype Change<+H> = Arrived(id: NodeId, handle: H) | Left(id: NodeId)

  /** The handle an id has by the last change that is about it. */
  function Latest<H>(history: seq<Change<H>>, id: NodeId): Option<H> {
    if history == [] then None
    else
      var last := history[|history| - 1];
      if last.id != id then Latest(history[..|history| - 1], id)
      else if last.Arrived? then Some(last.handle)
      else None
  }

  /** A node is found exactly if it arrived and nothing has been said of its id since. */
  lemma {:induction false} LatestIs<H(!new)>(history: seq<Change<H>>, id: NodeId, handle: H)
    ensures Latest(history, id) == Some(handle) <==>
            exists i :: 0 <= i < |history| && history[i] == Arrived(id, handle)
                        && forall j :: i < j < |history| ==> history[j].id != id
    decreases |history|
  {
    if history != [] {
      var n := |history| - 1;
      var before := history[..n];
      LatestIs(before, id, handle);
      if history[n].id == id {
        if history[n] == Arrived(id, handle) {
          assert 0 <= n < |history| && history[n] == Arrived(id, handle);
        }
      } else if Latest(before, id) == Some(handle) {
        var i :| 0 <= i < |before| && before[i] == Arrived(id, handle)
                 && forall j :: i < j < |before| ==> before[j].id != id;
        assert history[i] == Arrived(id, handle);
        assert forall j :: i < j < n ==> history[j] == before[j];
      } else {
        forall i | 0 <= i < |history| && history[i] == Arrived(id, handle)
          ensures exists j :: i < j < |history| && history[j].id == id
        {
          assert before[i] == Arrived(id, handle);
          var j :| i < j < |before| && before[j].id == id;
          assert history[j].id == id;
        }
      }
    }
  }

  lemma LatestAfter<H>(history: seq<Change<H>>, c: Change<H>, id: NodeId)
    ensures Latest(history + [c], id) ==
            if c.id != id then Latest(history, id) else if c.Arrived? then Some(c.handle) else None
  {
    assert (history + [c])[..|history|] == history;
  }

  // ----- the registry as the program keeps it -----------------------------------

  /** Clones of the manager share this one object; `history` lists its changes. */
  class Registry<H(==)> {
    var nodes: map<NodeId, H>
    ghost var history: seq<Change<H>>

    ghost predicate Valid()
      reads this
    {
      forall id: NodeId :: Latest(history, id) == if id in nodes then Some(nodes[id]) else None
    }

    constructor ()
      ensures Valid() && history == []
    {
      nodes, history := map[], [];
    }

    method Insert(id: NodeId, handle: H)
      requires Valid()
      modifies this
      ensures Valid() && history == old(history) + [Arrived(id, handle)]
      ensures id in nodes && nodes[id] == handle
      ensures forall k: NodeId :: k != id ==>
                (k in nodes <==> k in old(nodes)) && (k in nodes ==> nodes[k] == old(nodes)[k])
      ensures nodes == Inserted(old(nodes), id, handle)
    {
      nodes := nodes[id := handle];
      history := history + [Arrived(id, handle)];
      forall k: NodeId
        ensures Latest(history, k) == if k in nodes then Some(nodes[k]) else None
      {
        LatestAfter(old(history), Arrived(id, handle), k);
      }
    }

    method Remove(id: NodeId)
      requires Valid()
      modifies this
      ensures Valid() && history == old(history) + [Left(id)]
      ensures id !in nodes
      ensures forall k: NodeId :: k != id ==>
                (k in nodes <==> k in old(nodes)) && (k in nodes ==> nodes[k] == old(nodes)[k])
      ensures nodes == Removed(old(nodes), id)
    {
      nodes := map k | k in nodes && k != id :: nodes[k];
      history := history + [Left(id)];
      forall k: NodeId
        ensures Latest(history, k) == if k in nodes then Some(nodes[k]) else None
      {
        LatestAfter(old(history), Left(id), k);
      }
    }

    method Get(id: NodeId) returns (r: Option<H>)
      requires Valid()
      ensures r == Latest(history, id)
    {
      if id in nodes {
        r := Some(nodes[id]);
      } else {
        r := None;
      }
    }

    method IsKnown(id: NodeId) returns (known: bool)
      requires Valid()
      ensures known == Latest(history, id).Some? == Exists(nodes, id)
    {
      var node := Get(id);
      known := node.Some?;
    }
  }
}
