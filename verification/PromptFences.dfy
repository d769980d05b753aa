/** The prompt tasks and the configuration fences of one worker, side by side. */
module PromptFences {
  import opened Results
  import W = WorkerPrompts
  import C = ConfigFences
  import H = FenceHistory

  /** Task `t` waits for the fences of prompt `t`. */
  datatype System = System(worker: W.Worker, config: C.State)

  datatype Step = Accept | Work(work: W.Step) | Configure(config: C.Step)

  const START := System(W.IDLE, C.START)

  /** A prompt is accepted and takes its fences at once; its task passes them only when all of them opened. */
  predicate Enabled(s: System, step: Step) {
    match step
    case Accept => C.Enabled(s.config, C.Ask)
    case Work(x) =>
      && !x.Accept? && W.Enabled(s.worker, x)
      && (x.Configure? && x.ok ==> Opened(s, x.i))
    case Configure(x) => !x.Ask? && C.Enabled(s.config, x)
  }

  function Next(s: System, step: Step): System
    requires Enabled(s, step)
  {
    match step
    case Accept => System(W.Next(s.worker, W.Accept), C.Next(s.config, C.Ask))
    case Work(x) => s.(worker := W.Next(s.worker, x))
    case Configure(x) => s.(config := C.Next(s.config, x))
  }

  predicate Opened(s: System, t: nat) {
    t < |s.config.prompts| && C.CanSend(s.config, s.config.prompts[t])
  }

  /** The task is between its fences and its end. */
  predicate Past(w: W.Worker, t: nat) {
    && t < |w.tasks|
    && var p := w.tasks[t].place;
       p.Preparing? || p.Sending? || p.Rechecking? || p.Entering? || p.Awaiting? || p.BackingOff?
  }

  /** Whatever task is past its fences, or sent a request, found them open, and they are. */
  ghost predicate Inv(s: System) {
    && |s.worker.tasks| == |s.config.prompts|
    && C.Inv(s.config)
    && (forall t: nat :: Past(s.worker, t) ==> Opened(s, t))
    && (forall k: nat :: SentOpened(s, k))
  }

  predicate SentOpened(s: System, k: nat) {
    k < |s.worker.log| && s.worker.log[k].Request? ==> Opened(s, s.worker.log[k].task)
  }

  lemma PastNext(w: W.Worker, x: W.Step, t: nat)
    requires W.Enabled(w, x) && Past(W.Next(w, x), t)
    ensures Past(w, t) || x == W.Configure(t, true)
  {
  }

  lemma RequestNext(w: W.Worker, x: W.Step, k: nat)
    requires W.Enabled(w, x) && k < |W.Added(w, x)| && W.Added(w, x)[k].Request?
    ensures Past(w, W.Added(w, x)[k].task)
  {
  }

  lemma WorkKeeps(s: System, x: W.Step)
    requires Inv(s) && Enabled(s, Work(x))
    ensures Inv(Next(s, Work(x)))
  {
    var v := Next(s, Work(x));
    var more := W.Added(s.worker, x);
    forall t: nat | Past(v.worker, t) ensures Opened(v, t) {
      PastNext(s.worker, x, t);
    }
    forall k: nat ensures SentOpened(v, k) {
      assert SentOpened(s, k);
      if |s.worker.log| <= k < |v.worker.log| && v.worker.log[k].Request? {
        assert v.worker.log[k] == more[k - |s.worker.log|];
        RequestNext(s.worker, x, k - |s.worker.log|);
      }
    }
    TasksStay(s.worker, x);
  }

  lemma TasksStay(w: W.Worker, x: W.Step)
    requires W.Enabled(w, x) && !x.Accept?
    ensures |W.Next(w, x).tasks| == |w.tasks|
  {
  }

  lemma ConfigKeeps(s: System, x: C.Step)
    requires Inv(s) && Enabled(s, Configure(x))
    ensures Inv(Next(s, Configure(x)))
  {
    var v := Next(s, Configure(x));
    C.StepKeeps(s.config, x);
    forall t: nat | Opened(s, t) ensures Opened(v, t) {
      C.SendStays(s.config, x, s.config.prompts[t]);
    }
    forall k: nat ensures SentOpened(v, k) {
      assert SentOpened(s, k);
    }
  }

  lemma AcceptKeeps(s: System)
    requires Inv(s) && Enabled(s, Accept)
    ensures Inv(Next(s, Accept))
  {
    var v := Next(s, Accept);
    C.StepKeeps(s.config, C.Ask);
    forall t: nat | Opened(s, t) ensures Opened(v, t) {
      C.SendStays(s.config, C.Ask, s.config.prompts[t]);
    }
    forall t: nat | Past(v.worker, t) ensures Past(s.worker, t) {
      PastNext(s.worker, W.Accept, t);
    }
    forall k: nat ensures SentOpened(v, k) {
      assert SentOpened(s, k);
    }
  }

  predicate StepAt(run: seq<System>, steps: seq<Step>, i: nat) {
    i < |steps| && i + 1 < |run| ==> Enabled(run[i], steps[i]) && run[i + 1] == Next(run[i], steps[i])
  }

  ghost predicate IsRun(run: seq<System>, steps: seq<Step>) {
    |run| == |steps| + 1 && run[0] == START && forall i: nat :: StepAt(run, steps, i)
  }

  lemma {:induction false} RunKeeps(run: seq<System>, steps: seq<Step>, n: nat)
    requires IsRun(run, steps) && n < |run|
    ensures Inv(run[n])
  {
    if n > 0 {
      RunKeeps(run, steps, n - 1);
      assert StepAt(run, steps, n - 1);
      match steps[n - 1]
      case Accept => AcceptKeeps(run[n - 1]);
      case Work(x) => WorkKeeps(run[n - 1], x);
      case Configure(x) => ConfigKeeps(run[n - 1], x);
    }
  }

  /**
   * Over all interleavings of prompts, stops, replies and changes of configuration: once the request of a prompt was
   * sent, the last change of each setting submitted before the prompt has succeeded, and none submitted before it is
   * in flight, unless an unreadable change of the mode came after it. So a dropped or rejected change blocks the
   * prompt.
   */
  lemma RequestsFenced(run: seq<System>, steps: seq<Step>, n: nat, k: nat, t: nat, i: nat)
    requires IsRun(run, steps) && n < |run| && k < |run[n].worker.log| && run[n].worker.log[k] == W.Request(t)
    ensures t < |run[n].config.prompts|
    ensures
      var p := run[n].config.prompts[t];
      i < p.at ==> C.Fenced(run[n].config, p, i)
  {
    RunKeeps(run, steps, n);
    assert SentOpened(run[n], k);
    if i < run[n].config.prompts[t].at {
      C.SendFenced(run[n].config, run[n].config.prompts[t], i);
    }
  }

  /* The same, told by the steps alone. */

  /** The steps of the configuration among those of the system; accepting a prompt takes its fences. */
  function ConfigSteps(steps: seq<Step>): seq<C.Step> {
    if steps == [] then []
    else
      var init := ConfigSteps(steps[..|steps| - 1]);
      match steps[|steps| - 1]
      case Accept => init + [C.Ask]
      case Work(_) => init
      case Configure(x) => init + [x]
  }

  lemma {:induction false} RunTold(run: seq<System>, steps: seq<Step>, n: nat)
    requires IsRun(run, steps) && n < |run|
    ensures H.Told(run[n].config, ConfigSteps(steps[..n]))
  {
    if n == 0 {
      H.RunTold([C.START], [], 0);
      assert steps[..0] == [];
    } else {
      RunTold(run, steps, n - 1);
      assert StepAt(run, steps, n - 1);
      assert steps[..n][..n - 1] == steps[..n - 1];
      match steps[n - 1]
      case Accept => H.TellsOn(run[n - 1].config, ConfigSteps(steps[..n - 1]), C.Ask);
      case Work(_) =>
      case Configure(x) => H.TellsOn(run[n - 1].config, ConfigSteps(steps[..n - 1]), x);
    }
  }

  /** A task gets past its fences exactly when the last change of each setting before its prompt succeeded. */
  lemma PassesIff(run: seq<System>, steps: seq<Step>, n: nat, t: nat)
    requires IsRun(run, steps) && n < |run| && W.Enabled(run[n].worker, W.Configure(t, true))
    ensures Enabled(run[n], Work(W.Configure(t, true))) <==> H.AllSucceeded(ConfigSteps(steps[..n]), t)
  {
    RunKeeps(run, steps, n);
    assert Enabled(run[n], Work(W.Configure(t, true))) <==> Opened(run[n], t);
    RunTold(run, steps, n);
    H.SendTold(run[n].config, ConfigSteps(steps[..n]), t);
  }

  /** Whoever sent a request found that each of those changes had succeeded. */
  lemma RequestSucceeded(run: seq<System>, steps: seq<Step>, n: nat, k: nat, t: nat, f: nat)
    requires IsRun(run, steps) && n < |run| && k < |run[n].worker.log| && run[n].worker.log[k] == W.Request(t)
    requires H.LastBefore(ConfigSteps(steps[..n]), t, f)
    ensures H.Succeeded(ConfigSteps(steps[..n]), f)
  {
    RunKeeps(run, steps, n);
    RunTold(run, steps, n);
    assert SentOpened(run[n], k);
    H.SendTold(run[n].config, ConfigSteps(steps[..n]), t);
  }

  lemma LogGrows(run: seq<System>, steps: seq<Step>, i: nat)
    requires IsRun(run, steps) && i + 1 < |run|
    ensures run[i].worker.log <= run[i + 1].worker.log
  {
    assert StepAt(run, steps, i);
    match steps[i]
    case Accept => assert W.Added(run[i].worker, W.Accept) == W.Added(run[i].worker, W.Accept);
    case Work(x) => assert W.Added(run[i].worker, x) == W.Added(run[i].worker, x);
    case Configure(_) =>
  }

  lemma {:induction false} LogsGrow(run: seq<System>, steps: seq<Step>, m: nat, n: nat)
    requires IsRun(run, steps) && m <= n < |run|
    ensures run[m].worker.log <= run[n].worker.log
    decreases n
  {
    if m < n {
      LogsGrow(run, steps, m, n - 1);
      LogGrows(run, steps, n - 1);
    }
  }

  lemma LostStays(run: seq<System>, steps: seq<Step>, i: nat, f: nat)
    requires IsRun(run, steps) && i + 1 < |run| && f < |run[i].config.status|
    requires run[i].config.status[f] == C.Decided(false)
    ensures f < |run[i + 1].config.status| && run[i + 1].config.status[f] == C.Decided(false)
  {
    assert StepAt(run, steps, i);
    RunKeeps(run, steps, i);
    match steps[i]
    case Accept => C.DecidedStays(run[i].config, C.Ask, f);
    case Work(_) =>
    case Configure(x) => C.DecidedStays(run[i].config, x, f);
  }

  lemma {:induction false} LostForEver(run: seq<System>, steps: seq<Step>, m: nat, n: nat, f: nat)
    requires IsRun(run, steps) && m <= n < |run| && f < |run[m].config.status|
    requires run[m].config.status[f] == C.Decided(false)
    ensures f < |run[n].config.status| && run[n].config.status[f] == C.Decided(false)
    decreases n
  {
    if m < n {
      LostForEver(run, steps, m, n - 1, f);
      LostStays(run, steps, n - 1, f);
    }
  }

  /**
   * If the last change of a setting before a prompt was rejected or dropped, no request of that prompt is ever sent,
   * neither before nor after.
   */
  lemma LostBlocks(run: seq<System>, steps: seq<Step>, n: nat, t: nat, f: nat, m: nat, k: nat)
    requires IsRun(run, steps) && n < |run| && H.LastBefore(ConfigSteps(steps[..n]), t, f)
    requires H.Lost(ConfigSteps(steps[..n]), f) && m < |run| && k < |run[m].worker.log|
    ensures run[m].worker.log[k] != W.Request(t)
  {
    RunTold(run, steps, n);
    assert H.StatusTold(run[n].config, ConfigSteps(steps[..n]), f);
    if run[m].worker.log[k] == W.Request(t) {
      if m <= n {
        LogsGrow(run, steps, m, n);
        RequestSucceeded(run, steps, n, k, t, f);
      } else {
        LostForEver(run, steps, n, m, f);
        RunTold(run, steps, m);
        assert H.StatusTold(run[m].config, ConfigSteps(steps[..m]), f);
        BeforeStays(run, steps, n, m, t, f);
        RequestSucceeded(run, steps, m, k, t, f);
      }
    }
  }

  lemma {:induction false} BeforeStays(run: seq<System>, steps: seq<Step>, n: nat, m: nat, t: nat, f: nat)
    requires IsRun(run, steps) && n <= m < |run| && H.LastBefore(ConfigSteps(steps[..n]), t, f)
    ensures H.LastBefore(ConfigSteps(steps[..m]), t, f)
    decreases m
  {
    if n < m {
      BeforeStays(run, steps, n, m - 1, t, f);
      var past := ConfigSteps(steps[..m - 1]);
      assert steps[..m][..m - 1] == steps[..m - 1];
      match steps[m - 1]
      case Accept => H.ListsNext(past, C.Ask);
      case Work(_) =>
      case Configure(x) => H.ListsNext(past, x);
    }
  }
}
