/** The doubly linked chain of pipeline stages: how it is built, and how an event climbs it. */
module StageChain {

  type EventKind = nat

  class Stage {
    const handled: set<EventKind>   // the events whose handling ends at this stage
    var next: Stage?
    var previous: Stage?
    var pipelineRoot: Stage?

    constructor (handled: set<EventKind>)
      ensures this.handled == handled && next == null && previous == null && pipelineRoot == null
    {
      this.handled := handled;
      next, previous, pipelineRoot := null, null, null;
    }
  }

  /** The stages an event visits when it is raised at position i: upwards, to the first that handles it or the root. */
  function Visits(chain: seq<Stage>, i: nat, event: EventKind): (visited: seq<Stage>)
    requires i < |chain|
  {
    if i == 0 || event in chain[i].handled then [chain[i]] else [chain[i]] + Visits(chain, i - 1, event)
  }

  /** An event nobody handles visits the whole chain above it in reverse order and reaches the root. */
  lemma {:induction false} UnhandledClimbsToRoot(chain: seq<Stage>, i: nat, event: EventKind)
    requires i < |chain| && forall k | 1 <= k <= i :: event !in chain[k].handled
    ensures var visited := Visits(chain, i, event);
            |visited| == i + 1 && visited[i] == chain[0] && forall k | 0 <= k <= i :: visited[k] == chain[i - k]
  {
    if i > 0 {
      UnhandledClimbsToRoot(chain, i - 1, event);
    }
  }

  /** A handler stops the event: only the stages from where it was raised up to that handler see it. */
  lemma {:induction false} HandlerStopsEvent(chain: seq<Stage>, i: nat, event: EventKind, h: nat)
    requires 1 <= h <= i < |chain| && event in chain[h].handled
    requires forall k | h < k <= i :: event !in chain[k].handled
    ensures var visited := Visits(chain, i, event);
            |visited| == i - h + 1 && forall k | 0 <= k <= i - h :: visited[k] == chain[i - k]
  {
    if i > h {
      HandlerStopsEvent(chain, i - 1, event, h);
    }
  }

  class Pipeline {
    const root: Stage
    ghost var chain: seq<Stage>

    /** The stages in append order, linked both ways, each appended one pointing at the root. */
    ghost predicate Valid()
      reads this, chain
    {
      chain != [] && chain[0] == root && root.previous == null &&
      (forall i, j | 0 <= i < j < |chain| :: chain[i] != chain[j]) &&
      (forall i | 0 <= i < |chain| - 1 :: chain[i].next == chain[i + 1] && chain[i + 1].previous == chain[i]) &&
      chain[|chain| - 1].next == null &&
      (forall i | 1 <= i < |chain| :: chain[i].pipelineRoot == root)
    }

    constructor ()
      ensures Valid() && chain == [root] && fresh(root)
    {
      root := new Stage({});
      new;
      chain := [root];
    }

    /**
     append_stage: the stage is linked behind the last one and nothing else changes.  The chain stays well
     formed if and only if the stage is not in it already and has no stage behind it.
     */
    method AppendStage(stage: Stage)
      requires Valid()
      modifies this`chain, chain, stage
      ensures chain == old(chain) + [stage]
      ensures var tail := old(chain)[|old(chain)| - 1];
              tail.next == stage && stage.previous == tail && stage.pipelineRoot == root &&
              (stage != tail ==> stage.next == old(stage.next)) &&
              forall other <- old(chain) | other != stage && other != tail :: unchanged(other)
      ensures Valid() <==> stage !in old(chain) && old(stage.next) == null
    {
      var oldTail := root;
      ghost var i := 0;
      assert |chain| > 1 ==> chain[0].next == chain[1];
      while oldTail.next != null
        invariant i < |chain| && oldTail == chain[i]
        invariant oldTail.next == null <==> i == |chain| - 1
        decreases |chain| - i
      {
        oldTail := oldTail.next;
        i := i + 1;
        assert i < |chain| - 1 ==> chain[i].next == chain[i + 1];
      }
      oldTail.next := stage;
      stage.previous := oldTail;
      stage.pipelineRoot := root;
      chain := chain + [stage];
      assert chain[|chain| - 1] == stage;
      if stage in old(chain) {
        ghost var k :| 0 <= k < |old(chain)| && old(chain)[k] == stage;
        assert chain[k] == chain[|chain| - 1];
      }
    }

    /** handle_pipeline_event: a stage that does not handle the event passes it to the previous one. */
    method HandleEvent(stage: Stage, event: EventKind, ghost i: nat) returns (visited: seq<Stage>)
      requires Valid() && i < |chain| && chain[i] == stage
      ensures visited == Visits(chain, i, event)
      decreases i
    {
      visited := [stage];
      if event !in stage.handled && stage.previous != null {
        var above := HandleEvent(stage.previous, event, i - 1);
        visited := visited + above;
      }
    }
  }
}
