/** The pipelined scheduler: every promise is set once, when its request leaves the pipeline, unless postprocess threw. */
module AsyncPromises {
  import opened Runner
  import opened BufferSlots
  import opened AsyncScheduler

  /** A promise is unset while its request is in the pipeline; on leaving it is set, unless postprocess threw. */
  ghost predicate PromiseInv(q: Request) {
    && (!q.stage.Ended? ==> q.result.None?)
    && (q.stage.Ended? ==> (q.result.Some? <==> !q.stage.postThrew))
  }

  ghost predicate PromisesInv(s: State) {
    forall p :: 0 <= p < |s.requests| ==> PromiseInv(s.requests[p])
  }

  lemma StepKeepsPromises(cuda: bool, r: Runner, s: State, e: Event)
    requires PromisesInv(s)
    ensures PromisesInv(Step(cuda, r, s, e))
  {
    if Enabled(cuda, r, s, e) && (e.Pre? || e.Infer? || e.Post?) {
      assert PromiseInv(s.requests[e.p]);
    }
  }

  /** In every run, of either build, a promise is set at most once, on leaving the pipeline; it is left unset exactly when
      postprocess threw. */
  lemma {:induction false} PromisesSetOnce(cuda: bool, r: Runner, init: State, es: seq<Event>)
    requires Initial(r, init)
    ensures PromisesInv(Exec(cuda, r, init, es))
  {
    if es != [] {
      PromisesSetOnce(cuda, r, init, es[..|es| - 1]);
      StepKeepsPromises(cuda, r, Exec(cuda, r, init, es[..|es| - 1]), es[|es| - 1]);
    }
  }

  /** Once a request has left the pipeline its outcome, or the lack of one, never changes. */
  lemma {:induction false} OutcomesAreFinal(cuda: bool, r: Runner, s: State, es: seq<Event>, p: nat)
    requires p < |s.requests| && s.requests[p].stage.Ended?
    ensures var s' := Exec(cuda, r, s, es); p < |s'.requests| && s'.requests[p] == s.requests[p]
  {
    if es != [] {
      OutcomesAreFinal(cuda, r, s, es[..|es| - 1], p);
    }
  }
}
