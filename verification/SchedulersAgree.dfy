/** The three schedulers give one and the same answer to an input, whichever of them serves it. */
module SchedulersAgree {
  import opened Runner
  import BatchBuffers
  import BatchRefinement
  import SyncScheduler
  import AsyncScheduler
  import AsyncAnswers

  /** A run of the batch scheduler over its pools, under the conditions of PooledBatchingRefinesSequential, against any run of the
      sequential one: the same image gets the same value. */
  lemma BatchAgreesWithSync(r: Runner, init: BatchBuffers.State, es: seq<BatchBuffers.Event>, b: nat, i: nat,
                            fs: seq<SyncScheduler.Event>, q: nat, stale: seq<Plane>, staleParams: seq<Params>)
    requires SlotWise(r) && r.batch > 0 && BatchBuffers.Initial(r, init) && IsBuffer(r, stale, staleParams)
    requires BatchRefinement.Spaced(r, init, es) && BatchRefinement.NeverTorn(r, init)
    requires var s := BatchBuffers.Exec(r, init, es).core;
      && b < |s.batches| && i < |s.batches[b].results| && s.batches[b].results[i].Some? && s.batches[b].results[i].value.Value?
    requires var t := SyncScheduler.Exec(r, SyncScheduler.START, fs);
      q < |t.outcomes| && q < |t.submitted| && t.outcomes[q].Some? && t.outcomes[q].value.Value?
    ensures var s, t := BatchBuffers.Exec(r, init, es).core, SyncScheduler.Exec(r, SyncScheduler.START, fs);
      && i < |s.batches[b].promises| && s.batches[b].promises[i] < |s.submitted|
      && (s.submitted[s.batches[b].promises[i]] == t.submitted[q] ==> s.batches[b].results[i] == t.outcomes[q])
  {
    BatchRefinement.PooledBatchingRefinesSequential(r, init, es, b, i, stale, staleParams);
    SyncScheduler.ServesInOrder(r, fs, stale, staleParams);
  }

  /** A run of the pipelined scheduler of a CUDA build, under the conditions of PipelineAnswersAlone, against the sequential one. */
  lemma AsyncAgreesWithSync(r: Runner, init: AsyncScheduler.State, es: seq<AsyncScheduler.Event>, p: nat,
                            fs: seq<SyncScheduler.Event>, q: nat, stale: seq<Plane>, staleParams: seq<Params>)
    requires SlotWise(r) && r.batch > 0 && AsyncScheduler.Initial(r, init) && IsBuffer(r, stale, staleParams)
    requires AsyncAnswers.Spaced(true, r, init, es) && (TornBlind(r, stale, staleParams) || !AsyncScheduler.TwoAtOnce(init))
    requires var s := AsyncScheduler.Exec(true, r, init, es);
      p < |s.requests| && s.requests[p].result.Some? && s.requests[p].result.value.Value?
    requires var t := SyncScheduler.Exec(r, SyncScheduler.START, fs);
      q < |t.outcomes| && q < |t.submitted| && t.outcomes[q].Some? && t.outcomes[q].value.Value?
    ensures var s, t := AsyncScheduler.Exec(true, r, init, es), SyncScheduler.Exec(r, SyncScheduler.START, fs);
      s.requests[p].x == t.submitted[q] ==> s.requests[p].result == t.outcomes[q]
  {
    AsyncAnswers.PipelineAnswersAlone(r, init, es, p, stale, staleParams);
    SyncScheduler.ServesInOrder(r, fs, stale, staleParams);
  }
}
