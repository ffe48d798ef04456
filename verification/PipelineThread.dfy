/**
 The pipeline thread: it runs one task after the other on the pipeline object, so the run theorems are
 contracts of that object.
 */
module PipelineThread {
  import opened Options
  import opened ConnectionModel
  import opened ConnectionFlat
  import opened ConnectionTheorems
  import opened ConnectionOutcomes
  import opened ConnectionPipeline

  class Thread {
    const pipeline: Pipeline
    ghost var turns: seq<Turn>   // the tasks so far

    ghost predicate Valid()
      reads this, pipeline
    {
      ProperRun(turns) && pipeline.Current() == Run(INITIAL, turns)
    }

    constructor ()
      ensures Valid() && fresh(pipeline) && turns == []
    {
      pipeline := new Pipeline();
      turns := [];
    }

    /**
     One more task.  After every task the pipeline is settled and has cancelled nothing; it knows whether
     there is a link; every operation is in as many places or completed as many times as it was submitted;
     and what the task handed down and completed fits the task and the link.
     */
    method RunTask(turn: Turn)
      requires Valid() && Proper(turn)
      modifies this, pipeline
      ensures Valid() && turns == old(turns) + [turn]
      ensures Settled(pipeline.Current()) && pipeline.cancelled == []
      ensures pipeline.connected == LinkUp(turns)
      ensures forall id :: Accounted(pipeline.Current(), id) == Submissions(turns, id)
      ensures NewsFits(turn, LinkUp(turns), old(pipeline.awaitingAck), old(pipeline.Current()), pipeline.Current())
    {
      pipeline.RunTask(turn);
      ghost var before := turns;
      turns := turns + [turn];
      assert turns[..|turns| - 1] == before && turns[..|turns|] == turns;
      RunNeverCancels(turns);
      ConnectedIffLinkUp(turns);
      NewsOfEveryTaskFits(turns, |before|);
      forall id
        ensures Accounted(pipeline.Current(), id) == Submissions(turns, id)
      {
        ExactlyOnce(turns, id);
      }
    }
  }
}
