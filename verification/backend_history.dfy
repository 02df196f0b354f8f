/**
 Histories of the backend: every step with the state it was taken in and the host memory
 it saw. A sequence of method calls is proved against its history.
 */
module BackendHistory {
  import opened Oracle
  import opened Chains
  import opened Backends
  import opened BackendShapes
  import opened BackendContent

  datatype Moment = Moment(state: Backend, step: BackendStep, host: Host)

  function StateAt(history: seq<Moment>, b: Backend, k: nat): Backend {
    if k < |history| then history[k].state else b
  }

  /** Step k was enabled, saw inputs that were kept, and led to the next state. */
  ghost predicate Follows(nm: Numerics, history: seq<Moment>, b: Backend, k: nat)
    requires k < |history|
  {
    var m := history[k];
    && Enabled(m.state, m.step) && Sees(m.step, m.host) && HostKept(m.state, m.host)
    && StateAt(history, b, k + 1) == Apply(nm, m.state, m.step)
  }

  /** `b` is where a run from a new backend has come. */
  ghost predicate Traced(nm: Numerics, history: seq<Moment>, b: Backend) {
    && Initial(StateAt(history, b, 0))
    && forall k {:trigger Follows(nm, history, b, k)} :: 0 <= k < |history| ==> Follows(nm, history, b, k)
  }

  /** No ask is ever forgotten, so what is true of all asks was true of them at every step. */
  lemma AsksGrowBy(nm: Numerics, b: Backend, step: BackendStep)
    requires Enabled(b, step)
    ensures AsksCanonical(Apply(nm, b, step).asks) ==> AsksCanonical(b.asks) && BringsCanonical(step)
  {
    var e := Apply(nm, b, step);
    assert b.asks <= e.asks;
    assert step.Issue? ==> e.asks[|b.asks|].job == step.job;
  }

  lemma {:induction false} SoundAt(nm: Numerics, history: seq<Moment>, b: Backend, k: nat)
    requires Traced(nm, history, b) && k <= |history|
    ensures HandlesInv(StateAt(history, b, k)) && ShapeInv(nm, StateAt(history, b, k))
    ensures AsksCanonical(StateAt(history, b, k).asks) ==> ContentInv(nm, StateAt(history, b, k))
    decreases k
  {
    if k == 0 {
      InitialContent(nm, StateAt(history, b, 0), []);
      InitialShape(nm, StateAt(history, b, 0));
    } else {
      SoundAt(nm, history, b, k - 1);
      assert Follows(nm, history, b, k - 1);
      var m := history[k - 1];
      StepKeepsHandles(nm, m.state, m.step);
      StepKeepsShape(nm, m.state, m.step);
      AsksGrowBy(nm, m.state, m.step);
      if AsksCanonical(StateAt(history, b, k).asks) {
        StepKeepsContent(nm, m.state, m.step, m.host);
      }
    }
  }

  /**
   Whatever the calls and the driver did, handles are in place and buffers fit; and if all
   chains submitted were canonical, contents are right.
   */
  lemma TracedIsSound(nm: Numerics, history: seq<Moment>, b: Backend)
    requires Traced(nm, history, b)
    ensures HandlesInv(b) && ShapeInv(nm, b)
    ensures AsksCanonical(b.asks) ==> ContentInv(nm, b)
  {
    SoundAt(nm, history, b, |history|);
  }

  lemma TracedHandles(nm: Numerics, history: seq<Moment>, b: Backend)
    requires Traced(nm, history, b)
    ensures HandlesInv(b)
  {
    TracedIsSound(nm, history, b);
  }

  lemma FollowsStill(nm: Numerics, history: seq<Moment>, b: Backend, last: Moment, e: Backend, k: nat)
    requires k < |history| && Follows(nm, history, b, k) && last.state == b
    ensures Follows(nm, history + [last], e, k)
  {
    var longer := history + [last];
    assert longer[k] == history[k] && StateAt(longer, e, k + 1) == StateAt(history, b, k + 1);
  }

  lemma TracedOneMore(nm: Numerics, history: seq<Moment>, b: Backend, step: BackendStep, host: Host)
    requires Traced(nm, history, b) && Enabled(b, step) && Sees(step, host) && HostKept(b, host)
    ensures Traced(nm, history + [Moment(b, step, host)], Apply(nm, b, step))
    ensures HostKept(Apply(nm, b, step), host)
  {
    var last, e := Moment(b, step, host), Apply(nm, b, step);
    TracedHandles(nm, history, b);
    StepKeepsHost(nm, b, step, host);
    forall k | 0 <= k < |history + [last]| ensures Follows(nm, history + [last], e, k) {
      if k < |history| {
        FollowsStill(nm, history, b, last, e, k);
      }
    }
    assert StateAt(history + [last], e, 0) == StateAt(history, b, 0);
  }

  function StepsOf(history: seq<Moment>): (r: seq<BackendStep>)
    ensures |r| == |history|
  {
    seq(|history|, k requires 0 <= k < |history| => history[k].step)
  }

  lemma {:induction false} RunsTo(nm: Numerics, history: seq<Moment>, b: Backend, k: nat)
    requires Traced(nm, history, b) && k <= |history|
    ensures Run(nm, StateAt(history, b, 0), StepsOf(history)[..k]) == Some(StateAt(history, b, k))
    decreases k
  {
    if k > 0 {
      RunsTo(nm, history, b, k - 1);
      assert Follows(nm, history, b, k - 1);
      RunOneMore(nm, StateAt(history, b, 0), StepsOf(history)[..k - 1], StateAt(history, b, k - 1), history[k - 1].step);
      assert StepsOf(history)[..k] == StepsOf(history)[..k - 1] + [history[k - 1].step];
    }
  }

  /** A history is a run of the step system, so all that holds of runs holds of it. */
  lemma HistoryIsRun(nm: Numerics, history: seq<Moment>, b: Backend)
    requires Traced(nm, history, b)
    ensures Run(nm, StateAt(history, b, 0), StepsOf(history)) == Some(b)
    ensures HandlesPartitioned(b)
  {
    RunsTo(nm, history, b, |history|);
    assert StepsOf(history)[..|history|] == StepsOf(history);
    HandlesAlwaysPartitioned(nm, StateAt(history, b, 0), StepsOf(history));
  }
}
