/**
 * GPTrainer.train_model: the epoch loop that optimises the kernel, refreshes the
 * cached predictions the requested metrics need, records the metrics, yields
 * one dictionary per epoch, keeps the best validation NLL for early stopping and
 * saves a checkpoint on every improvement.
 *
 * The library numerics of one epoch (the loss `optimize_cycle` returns, the
 * regression model's NLL, means and stddevs after that step) enter as the
 * values of `model(k)` for the k-th epoch of the call. The loop is specified by
 * the function `Run` over a `Progress` value; the class `Trainer` runs the same
 * loop on its fields and is proved to end where `Run` does.
 */
module GPTrainer {
  import opened Wrappers
  import opened Floats
  import opened GPMetrics

  /** The keys of the trainer's `metrics` dictionary of float variables. */
  const Slots: set<string> := {"nll", "mae", "sharpness", "variation", "calibration_err"}

  /** The library's values after the k-th `optimize_cycle` of a call. */
  datatype EpochOracle = EpochOracle(loss: Float, nll: Float, mean: seq<real>, stddevs: seq<real>)

  /** Which metrics make the loop refresh the cached means and stddevs. */
  datatype Dependencies = Dependencies(mean: set<string>, stddev: set<string>)

  /** The table as written: `REQUIRES_MEAN` and `REQUIRES_STDDEV`. */
  const SourceDependencies: Dependencies := Dependencies(RequiresMean, RequiresStddev)

  /** The table that matches what each metric reads (see `AttributeReads`). */
  const IntendedDependencies: Dependencies :=
    Dependencies(RequiresMean, RequiresStddev + {"calibration_err", "pis"})

  /** A saved checkpoint: the step counter, the training loss and the metric slots. */
  datatype Checkpoint = Checkpoint(step: int, loss: Float, slots: map<string, Float>)

  /** A `tf.saved_model.save` of the trainer into a directory. */
  datatype Export = Export(dir: string, step: int)

  datatype TrainError =
    | InvalidMetric(name: string)  // ValueError raised from the AttributeError
    | MissingSlot(name: string)    // KeyError from `self.metrics[metric]`

  datatype Outcome = Completed | Failed(error: TrainError)

  /** Python truthiness of the optional `patience`. */
  function Truthy(patience: Option<int>): (r: bool)
    // `if patience` is false for None and for 0 and true for every other int.
    ensures !r <==> patience == None || patience == Some(0)
  {
    patience.Some? && patience.value != 0
  }

  /** The loop follows the validation NLL when there is a checkpoint manager or a patience. */
  function Tracking(hasManager: bool, patience: Option<int>): (r: bool)
    // Only a call with neither a manager nor a truthy patience skips the tracking.
    ensures !r <==> !hasManager && (patience == None || patience == Some(0))
  {
    hasManager || Truthy(patience)
  }

  /** The metric list after `train_model` has appended "nll" where it needs it. */
  function WithNll(names: seq<string>, tracking: bool): (r: seq<string>)
    ensures tracking ==> "nll" in r
    ensures r == names || r == names + ["nll"]
    ensures r != names <==> tracking && "nll" !in names
  {
    if tracking && "nll" !in names then names + ["nll"] else names
  }

  /**
   * The list is appended to in place, so a caller's list (the shared default
   * `[]` included) keeps the "nll" across calls: a later call appends nothing more.
   */
  lemma WithNllTwice(names: seq<string>, first: bool, second: bool)
    ensures WithNll(WithNll(names, first), second) == WithNll(names, first || second)
    ensures WithNll(WithNll(names, true), second) == WithNll(names, true)
  {
  }

  function Names(names: seq<string>): set<string> {
    set n | n in names
  }

  predicate NeedsMean(names: seq<string>, deps: Dependencies) {
    deps.mean * Names(names) != {}
  }

  predicate NeedsStddev(names: seq<string>, deps: Dependencies) {
    deps.stddev * Names(names) != {}
  }

  /**
   * The cache after the conditional `update_mean` and `update_stddevs` of one
   * epoch. Its contract is the definition itself; what it means for the stored
   * metrics is stated by `CacheKept`, `RefreshedIsCurrent` and `SourceTableKeepsStddevs`.
   */
  function Refresh(cache: Predictions, names: seq<string>, deps: Dependencies, o: EpochOracle): (r: Predictions)
    ensures r.mean == (if NeedsMean(names, deps) then o.mean else cache.mean)
    ensures r.stddevs == (if NeedsStddev(names, deps) then o.stddevs else cache.stddevs)
  {
    Predictions(if NeedsMean(names, deps) then o.mean else cache.mean,
                if NeedsStddev(names, deps) then o.stddevs else cache.stddevs)
  }

  /** Index i holds the first name of the list that is not in `keys`. */
  predicate FirstOutside(names: seq<string>, keys: set<string>, i: int) {
    0 <= i < |names| && names[i] !in keys && forall j :: 0 <= j < i ==> names[j] in keys
  }

  /** The first name in list order that `getattr` cannot resolve, the one the ValueError names. */
  function FirstInvalid(names: seq<string>): (r: Option<string>)
    ensures r.None? <==> forall i :: 0 <= i < |names| ==> names[i] in Attributes
    ensures r.Some? ==> exists i :: FirstOutside(names, Attributes, i) && names[i] == r.value
  {
    if names == [] then None
    else if names[0] !in Attributes then (assert FirstOutside(names, Attributes, 0); Some(names[0]))
    else
      var r := FirstInvalid(names[1..]);
      if r.Some? then
        var i :| FirstOutside(names[1..], Attributes, i) && names[1..][i] == r.value;
        assert FirstOutside(names, Attributes, i + 1);
        r
      else r
  }

  /**
   * The dictionary comprehension `{metric: getattr(gp_metrics, metric) for metric in metrics}`.
   * Its contract is close to the definition; `RecordFacts` builds on it.
   */
  function MetricDict(names: seq<string>, p: Predictions, v: Validation, nll: Float): (r: map<string, Value>)
    requires Fits(p, v)
    ensures r.Keys == Names(names)
    ensures forall n :: n in r ==> r[n] == Attribute(n, p, v, nll)
    ensures forall n :: n in r && n in Slots ==> r[n].Number?
  {
    map n | n in Names(names) :: Attribute(n, p, v, nll)
  }

  /**
   * The assignment loop over the dictionary: each name with a slot has its slot
   * set to the metric's float; the first name without one raises a KeyError,
   * leaving the slots assigned before it. A repeated name writes the same value
   * again, so walking the list gives the same slots as walking the dictionary.
   */
  function AssignSlots(slots: map<string, Float>, names: seq<string>, dict: map<string, Value>): (r: (map<string, Float>, Option<string>))
    requires forall i :: 0 <= i < |names| ==> names[i] in dict
    requires forall n :: n in dict && n in slots ==> dict[n].Number?
    ensures r.0.Keys == slots.Keys
    ensures r.1.None? <==> forall i :: 0 <= i < |names| ==> names[i] in slots
    ensures r.1.None? ==> WrittenUpTo(slots, names, dict, |names|, r.0)
    // The KeyError names the first name without a slot; the names before it stay assigned.
    ensures r.1.Some? ==> exists i :: FirstOutside(names, slots.Keys, i) && names[i] == r.1.value &&
                                      WrittenUpTo(slots, names, dict, i, r.0)
  {
    if names == [] then (slots, None)
    else if names[0] !in slots then
      assert FirstOutside(names, slots.Keys, 0) && WrittenUpTo(slots, names, dict, 0, slots);
      (slots, Some(names[0]))
    else
      var slots' := slots[names[0] := dict[names[0]].x];
      var r := AssignSlots(slots', names[1..], dict);
      assert forall i :: 1 <= i < |names| ==> names[i] == names[1..][i - 1];
      if r.1.Some? then
        var i :| FirstOutside(names[1..], slots'.Keys, i) && names[1..][i] == r.1.value &&
                 WrittenUpTo(slots', names[1..], dict, i, r.0);
        WrittenShift(slots, names, dict, i, r.0);
        FirstOutsideShift(names, slots.Keys, i);
        r
      else
        WrittenShift(slots, names, dict, |names| - 1, r.0);
        r
  }

  /**
   * `written` is `slots` after assigning the first k names: each slot holds its
   * metric's float when one of those names is its key, and its old value otherwise.
   */
  predicate WrittenUpTo(slots: map<string, Float>, names: seq<string>, dict: map<string, Value>, k: nat,
                        written: map<string, Float>)
    requires k <= |names|
  {
    written.Keys == slots.Keys &&
    forall n :: n in slots ==> written[n] == if n in names[..k] && n in dict && dict[n].Number? then dict[n].x else slots[n]
  }

  /** Assigning the first name and then k more is assigning the first k + 1. */
  lemma WrittenShift(slots: map<string, Float>, names: seq<string>, dict: map<string, Value>, k: nat,
                     written: map<string, Float>)
    requires k < |names| && names[0] in slots && names[0] in dict && dict[names[0]].Number?
    requires WrittenUpTo(slots[names[0] := dict[names[0]].x], names[1..], dict, k, written)
    ensures WrittenUpTo(slots, names, dict, k + 1, written)
  {
    assert names[..k + 1] == [names[0]] + names[1..][..k];
  }

  /** A first missing name after a present head is first in the whole list too, one place later. */
  lemma FirstOutsideShift(names: seq<string>, keys: set<string>, i: int)
    requires names != [] && names[0] in keys && FirstOutside(names[1..], keys, i)
    ensures FirstOutside(names, keys, i + 1)
  {
    assert forall j :: 1 <= j <= i ==> names[j] == names[1..][j - 1];
  }

  /** One step of the assignment walk. */
  lemma AssignSlotsStep(slots: map<string, Float>, names: seq<string>, dict: map<string, Value>)
    requires names != []
    requires forall i :: 0 <= i < |names| ==> names[i] in dict
    requires forall n :: n in dict && n in slots ==> dict[n].Number?
    ensures names[0] !in slots ==> AssignSlots(slots, names, dict) == (slots, Some(names[0]))
    ensures names[0] in slots ==>
      AssignSlots(slots, names, dict) == AssignSlots(slots[names[0] := dict[names[0]].x], names[1..], dict)
  {
  }

  /** The constants of one `train_model` call, the metric list being the one after the append. */
  datatype Env = Env(
    names: seq<string>,
    hasManager: bool,
    patience: Option<int>,
    deps: Dependencies,
    v: Validation,
    model: nat -> EpochOracle)

  /** The regression model predicts one value per validation point, and there are 100 bounds. */
  ghost predicate WellFormed(env: Env) {
    |env.v.bounds| == 100 &&
    forall k: nat :: Fits(Predictions(env.model(k).mean, env.model(k).stddevs), env.v)
  }

  /** The state the loop reads and writes. */
  datatype Progress = Progress(
    steps: int,                     // training_steps
    loss: Float,                    // loss
    slots: map<string, Float>,      // the metrics dictionary
    cache: Predictions,             // the GPMetrics mean and stddevs
    best: Float,                    // best_val_nll
    since: int,                     // steps_since_improvement
    saves: seq<Checkpoint>,         // the checkpoints saved so far
    yielded: seq<map<string, Value>>)

  predicate Invariant(env: Env, st: Progress) {
    st.slots.Keys == Slots && Fits(st.cache, env.v) && !st.best.NaN?
  }

  datatype Step = Continue(next: Progress) | Stop(next: Progress) | Fail(error: TrainError, next: Progress)

  /** The dictionary yielded at the end of an epoch. */
  function Snapshot(dict: map<string, Value>, loss: Float): (r: map<string, Value>)
    ensures r.Keys == dict.Keys + {"loss"} && r["loss"] == Number(loss)
  {
    dict["loss" := Number(loss)]
  }

  /**
   * A yielded dictionary: one key per requested metric plus "loss", each metric
   * holding the float just stored in its slot, and "loss" the epoch's loss.
   */
  predicate Reports(names: seq<string>, d: map<string, Value>, slots: map<string, Float>, loss: Float) {
    d.Keys == Names(names) + {"loss"} && d["loss"] == Number(loss) &&
    forall i :: 0 <= i < |names| ==> names[i] in slots && d[names[i]] == Number(slots[names[i]])
  }

  /** Every requested name has a slot in the trainer's `metrics` dictionary. */
  predicate AllSlots(names: seq<string>) {
    forall i :: 0 <= i < |names| ==> names[i] in Slots
  }

  /** Each requested metric's slot holds the metric as `getattr` computes it from the cache. */
  predicate StoredFrom(names: seq<string>, slots: map<string, Float>, cache: Predictions, v: Validation, nll: Float)
    requires Fits(cache, v)
  {
    forall i :: 0 <= i < |names| ==> names[i] in slots && Number(slots[names[i]]) == Attribute(names[i], cache, v, nll)
  }

  /** A yielded dictionary seen from outside: the requested metrics as floats, plus the loss. */
  predicate ReportsFloats(names: seq<string>, d: map<string, Value>, loss: Float) {
    d.Keys == Names(names) + {"loss"} && d["loss"] == Number(loss) &&
    forall i :: 0 <= i < |names| ==> names[i] in Slots && d[names[i]].Number?
  }

  /**
   * The metric dictionary, the slot assignments and the yield of one epoch,
   * once every name has resolved.
   */
  function Measure(env: Env, k: nat, st: Progress): (r: Step)
    requires WellFormed(env) && Invariant(env, st) && FirstInvalid(env.names).None?
    ensures r.Continue? || (r.Fail? && r.error.MissingSlot?)
    ensures r.next == st.(slots := r.next.slots, yielded := r.next.yielded)
    ensures r.next.slots.Keys == Slots
    ensures r.Fail? <==> !AllSlots(env.names)
    ensures r.Fail? ==> r.next.yielded == st.yielded
    ensures r.Fail? ==> exists i :: FirstOutside(env.names, Slots, i) && r.error == MissingSlot(env.names[i])
    ensures !r.Fail? ==> |r.next.yielded| == |st.yielded| + 1 && r.next.yielded[..|st.yielded|] == st.yielded
    ensures !r.Fail? ==> Reports(env.names, r.next.yielded[|st.yielded|], r.next.slots, st.loss)
    ensures !r.Fail? && "nll" in env.names ==> r.next.slots["nll"] == env.model(k).nll
    ensures !r.Fail? ==> StoredFrom(env.names, r.next.slots, st.cache, env.v, env.model(k).nll)
  {
    var dict := MetricDict(env.names, st.cache, env.v, env.model(k).nll);
    var (slots, missing) := AssignSlots(st.slots, env.names, dict);
    RecordFacts(env.names, st.slots, st.cache, env.v, env.model(k).nll, st.loss);
    if missing.Some? then Fail(MissingSlot(missing.value), st.(slots := slots))
    else Continue(st.(slots := slots, yielded := st.yielded + [Snapshot(dict, st.loss)]))
  }

  /** What the dictionary, the assignments and the snapshot of one epoch amount to. */
  lemma RecordFacts(names: seq<string>, slots0: map<string, Float>, p: Predictions, v: Validation, nll: Float, loss: Float)
    requires Fits(p, v) && slots0.Keys == Slots
    ensures var dict := MetricDict(names, p, v, nll);
      var (slots, missing) := AssignSlots(slots0, names, dict);
      slots.Keys == Slots && (missing.Some? <==> !AllSlots(names)) &&
      (missing.None? ==>
        Reports(names, Snapshot(dict, loss), slots, loss) &&
        ("nll" in names ==> slots["nll"] == nll) &&
        StoredFrom(names, slots, p, v, nll))
  {
    var dict := MetricDict(names, p, v, nll);
    assert forall i :: 0 <= i < |names| ==> names[i] in dict;
    var (slots, missing) := AssignSlots(slots0, names, dict);
    if missing.None? {
      AssignedFacts(names, slots0, p, v, nll, loss, slots);
    }
  }

  /** A complete assignment pass stores every listed metric's value in its slot. */
  lemma AssignedFacts(names: seq<string>, slots0: map<string, Float>, p: Predictions, v: Validation, nll: Float, loss: Float,
                      slots: map<string, Float>)
    requires Fits(p, v) && slots0.Keys == Slots
    requires forall i :: 0 <= i < |names| ==> names[i] in Slots
    requires WrittenUpTo(slots0, names, MetricDict(names, p, v, nll), |names|, slots)
    ensures Reports(names, Snapshot(MetricDict(names, p, v, nll), loss), slots, loss)
    ensures "nll" in names ==> slots["nll"] == nll
    ensures StoredFrom(names, slots, p, v, nll)
  {
    var dict := MetricDict(names, p, v, nll);
    var d := Snapshot(dict, loss);
    assert "loss" !in Slots;
    forall i | 0 <= i < |names|
      ensures names[i] in slots && d[names[i]] == Number(slots[names[i]])
      ensures Number(slots[names[i]]) == Attribute(names[i], p, v, nll)
    {
      assert names[i] != "loss";
    }
    if "nll" in names {
      var i :| 0 <= i < |names| && names[i] == "nll";
    }
  }

  /**
   * The bookkeeping after the yield: a strict improvement of the NLL slot over
   * the best resets the counter and saves a checkpoint when there is a manager;
   * anything else, NaN included, counts one more epoch without improvement and
   * breaks off once the counter reaches a truthy patience.
   */
  function Track(env: Env, st: Progress): (r: Step)
    requires "nll" in st.slots && !st.best.NaN?
    ensures r.Continue? || r.Stop?
    ensures r.next == st.(best := r.next.best, since := r.next.since, saves := r.next.saves)
    ensures AtMost(r.next.best, st.best) && !r.next.best.NaN?
    ensures !Tracking(env.hasManager, env.patience) ==> r == Continue(st)
    ensures Tracking(env.hasManager, env.patience) && Less(st.slots["nll"], st.best) ==>
      r.Continue? && r.next.best == st.slots["nll"] && r.next.since == 1 &&
      r.next.saves == st.saves + if env.hasManager then [Checkpoint(st.steps, st.loss, st.slots)] else []
    ensures Tracking(env.hasManager, env.patience) && !Less(st.slots["nll"], st.best) ==>
      r.next.best == st.best && r.next.since == st.since + 1 && r.next.saves == st.saves &&
      (r.Stop? <==> Truthy(env.patience) && st.since + 1 >= env.patience.value)
  {
    if !Tracking(env.hasManager, env.patience) then Continue(st)
    else if Less(st.slots["nll"], st.best) then
      Continue(st.(best := st.slots["nll"], since := 1,
                   saves := st.saves + if env.hasManager then [Checkpoint(st.steps, st.loss, st.slots)] else []))
    else
      var st' := st.(since := st.since + 1);
      if Truthy(env.patience) && st'.since >= env.patience.value then Stop(st') else Continue(st')
  }

  /** One pass of the loop body, for the k-th epoch of the call. */
  function Epoch(env: Env, k: nat, st: Progress): (r: Step)
    requires WellFormed(env) && Invariant(env, st)
    ensures Invariant(env, r.next)
    ensures r.next.steps == st.steps + 1 && r.next.loss == env.model(k).loss
    ensures r.next.cache == Refresh(st.cache, env.names, env.deps, env.model(k))
    ensures AtMost(r.next.best, st.best)
    // An epoch raises exactly when some requested name has no slot.
    ensures r.Fail? <==> !AllSlots(env.names)
    ensures r.Fail? ==> (r.error.InvalidMetric? <==> FirstInvalid(env.names).Some?)
    ensures r.Fail? ==> r.next.yielded == st.yielded && r.next.saves == st.saves &&
                        r.next.best == st.best && r.next.since == st.since
    // Otherwise it yields one dictionary, holding the values just stored.
    ensures !r.Fail? ==> |r.next.yielded| == |st.yielded| + 1 && r.next.yielded[..|st.yielded|] == st.yielded
    ensures !r.Fail? ==> Reports(env.names, r.next.yielded[|st.yielded|], r.next.slots, env.model(k).loss)
    ensures !r.Fail? && "nll" in env.names ==> r.next.slots["nll"] == env.model(k).nll
    ensures !r.Fail? ==> StoredFrom(env.names, r.next.slots, r.next.cache, env.v, env.model(k).nll)
    // Early stopping and checkpoints.
    ensures !r.Fail? && !Tracking(env.hasManager, env.patience) ==>
      r.Continue? && r.next.best == st.best && r.next.since == st.since && r.next.saves == st.saves
    ensures !r.Fail? && Tracking(env.hasManager, env.patience) && Less(r.next.slots["nll"], st.best) ==>
      r.Continue? && r.next.best == r.next.slots["nll"] && r.next.since == 1 &&
      r.next.saves == st.saves + if env.hasManager then [Checkpoint(r.next.steps, r.next.loss, r.next.slots)] else []
    ensures !r.Fail? && Tracking(env.hasManager, env.patience) && !Less(r.next.slots["nll"], st.best) ==>
      r.next.best == st.best && r.next.since == st.since + 1 && r.next.saves == st.saves &&
      (r.Stop? <==> Truthy(env.patience) && st.since + 1 >= env.patience.value)
  {
    Finish(env, k, Advance(env, k, st))
  }

  /** The loop body after the step and the refresh: the metrics, the yield and the tracking. */
  function Finish(env: Env, k: nat, st1: Progress): (r: Step)
    requires WellFormed(env) && Invariant(env, st1)
    ensures Invariant(env, r.next)
    // The step, the loss and the cache were settled before; the metrics cannot change them.
    ensures r.next.steps == st1.steps && r.next.loss == st1.loss && r.next.cache == st1.cache
    ensures r.Fail? <==> !AllSlots(env.names)
    ensures r.Fail? ==> r.next.yielded == st1.yielded && r.next.saves == st1.saves
  {
    var bad := FirstInvalid(env.names);
    if bad.Some? then Fail(InvalidMetric(bad.value), st1)
    else match Measure(env, k, st1)
      case Fail(e, st2) => Fail(e, st2)
      case Continue(st3) => Track(env, st3)
  }

  /** The state after the optimisation step and the refresh of the cache, before any metric. */
  function Advance(env: Env, k: nat, st: Progress): (r: Progress)
    requires WellFormed(env) && Invariant(env, st)
    ensures Invariant(env, r)
    ensures r == st.(loss := env.model(k).loss, steps := st.steps + 1,
                     cache := Refresh(st.cache, env.names, env.deps, env.model(k)))
  {
    st.(loss := env.model(k).loss, steps := st.steps + 1,
        cache := Refresh(st.cache, env.names, env.deps, env.model(k)))
  }

  datatype Trace = Trace(outcome: Outcome, final: Progress)

  /** The loop from its k-th epoch on, drained to the end: completed, broken off, or raised. */
  function Run(env: Env, k: nat, epochs: int, st: Progress): (r: Trace)
    requires WellFormed(env) && Invariant(env, st)
    decreases epochs - k
    ensures Invariant(env, r.final)
    // The call raises exactly when it runs an epoch and some requested name has no slot.
    ensures r.outcome.Failed? <==> k < epochs && !AllSlots(env.names)
  {
    if k >= epochs then Trace(Completed, st)
    else match Epoch(env, k, st)
      case Continue(next) => Run(env, k + 1, epochs, next)
      case Stop(next) => Trace(Completed, next)
      case Fail(e, next) => Trace(Failed(e), next)
  }

  /** The best NLL a call starts from: the stored one, with NaN read as +inf. */
  function InitialBest(slots: map<string, Float>): (r: Float)
    requires "nll" in slots
    ensures !r.NaN? && (slots["nll"].NaN? || r == slots["nll"])
  {
    if slots["nll"].NaN? then PosInf else slots["nll"]
  }

  /**
   * Each epoch that returns yields once and adds one to the step counter; an
   * epoch that raises adds one step and yields nothing, so the call yields at
   * most `epochs` dictionaries. The best NLL never increases.
   */
  lemma {:induction false} RunCounts(env: Env, k: nat, epochs: int, st: Progress)
    requires WellFormed(env) && Invariant(env, st)
    decreases epochs - k
    ensures Counted(env, k, epochs, st, Run(env, k, epochs, st))
  {
    if k < epochs {
      var r := Epoch(env, k, st);
      if r.Continue? {
        RunCounts(env, k + 1, epochs, r.next);
        RunStep(env, k, epochs, st);
        CountsContinue(env, k, epochs, st, r.next, Run(env, k + 1, epochs, r.next));
      } else {
        CountsEnd(env, k, epochs, st);
      }
    }
  }

  /** An epoch that breaks or raises ends a counted call. */
  lemma CountsEnd(env: Env, k: nat, epochs: int, st: Progress)
    requires WellFormed(env) && Invariant(env, st) && k < epochs && !Epoch(env, k, st).Continue?
    ensures Counted(env, k, epochs, st, Run(env, k, epochs, st))
  {
    RunStep(env, k, epochs, st);
  }

  /** What `RunCounts` states about the trace `t` of a call from its k-th epoch in the state `st`. */
  ghost predicate Counted(env: Env, k: nat, epochs: int, st: Progress, t: Trace) {
    Invariant(env, t.final) &&
    |t.final.yielded| >= |st.yielded| && t.final.yielded[..|st.yielded|] == st.yielded &&
    t.final.steps - st.steps == |t.final.yielded| - |st.yielded| + (if t.outcome.Failed? then 1 else 0) &&
    t.final.steps - st.steps <= (if epochs > k then epochs - k else 0) &&
    AtMost(t.final.best, st.best)
  }

  /** The two facts of `Counted` the saves need. */
  lemma CountedFacts(env: Env, k: nat, epochs: int, st: Progress, t: Trace)
    requires Counted(env, k, epochs, st, t)
    ensures st.steps <= t.final.steps && AtMost(t.final.best, st.best)
  {
  }

  /** A continuing epoch followed by a counted rest of the call is a counted call. */
  lemma CountsContinue(env: Env, k: nat, epochs: int, st: Progress, next: Progress, t: Trace)
    requires k < epochs && next.steps == st.steps + 1 && |next.yielded| == |st.yielded| + 1
    requires next.yielded[..|st.yielded|] == st.yielded && AtMost(next.best, st.best)
    requires Counted(env, k + 1, epochs, next, t)
    ensures Counted(env, k, epochs, st, t)
  {
    assert t.final.yielded[..|st.yielded|] == t.final.yielded[..|next.yielded|][..|st.yielded|];
    AtMostTransitive(t.final.best, next.best, st.best);
  }

  /** One unfolding of `Run`: its first epoch, then the rest of the call or the end. */
  lemma RunStep(env: Env, k: nat, epochs: int, st: Progress)
    requires WellFormed(env) && Invariant(env, st) && k < epochs
    ensures var r := Epoch(env, k, st);
      Run(env, k, epochs, st) == match r
        case Continue(next) => Run(env, k + 1, epochs, next)
        case Stop(next) => Trace(Completed, next)
        case Fail(e, next) => Trace(Failed(e), next)
  {
  }

  lemma PrefixAt<T>(a: seq<T>, b: seq<T>, n: nat)
    requires n < |b| <= |a| && a[..|b|] == b
    ensures a[n] == b[n]
  {
    assert a[n] == a[..|b|][n];
  }

  lemma ReportedFloats(names: seq<string>, d: map<string, Value>, slots: map<string, Float>, loss: Float)
    requires Reports(names, d, slots, loss) && slots.Keys == Slots
    ensures ReportsFloats(names, d, loss)
  {
  }

  /** The dictionaries from index `from` on report the epochs from `k` on. */
  predicate YieldsFrom(names: seq<string>, ys: seq<map<string, Value>>, from: nat, model: nat -> EpochOracle, k: nat) {
    forall j :: from <= j < |ys| ==> ReportsFloats(names, ys[j], model(k + j - from).loss)
  }

  lemma YieldsNone(names: seq<string>, ys: seq<map<string, Value>>, model: nat -> EpochOracle, k: nat)
    ensures YieldsFrom(names, ys, |ys|, model, k)
  {
  }

  lemma YieldsShift(names: seq<string>, ys: seq<map<string, Value>>, n: nat, model: nat -> EpochOracle, k: nat)
    requires n < |ys| && ReportsFloats(names, ys[n], model(k).loss)
    requires YieldsFrom(names, ys, n + 1, model, k + 1)
    ensures YieldsFrom(names, ys, n, model, k)
  {
    forall j | n < j < |ys| ensures ReportsFloats(names, ys[j], model(k + j - n).loss) {
      assert k + j - n == k + 1 + j - (n + 1);
    }
  }

  /** The j-th dictionary a call yields reports the metrics and loss of its (k + j)-th epoch. */
  lemma {:induction false} RunYields(env: Env, k: nat, epochs: int, st: Progress)
    requires WellFormed(env) && Invariant(env, st)
    decreases epochs - k
    ensures var t := Run(env, k, epochs, st);
      |t.final.yielded| >= |st.yielded| && YieldsFrom(env.names, t.final.yielded, |st.yielded|, env.model, k)
  {
    if k < epochs {
      var r := Epoch(env, k, st);
      if r.Continue? {
        RunYields(env, k + 1, epochs, r.next);
        YieldsContinue(env, k, epochs, st);
      } else if r.Stop? {
        YieldsStop(env, k, st);
      }
    }
  }

  /** A continuing epoch's yield followed by the yields of the rest of the call. */
  lemma YieldsContinue(env: Env, k: nat, epochs: int, st: Progress)
    requires WellFormed(env) && Invariant(env, st) && k < epochs && Epoch(env, k, st).Continue?
    requires var t := Run(env, k + 1, epochs, Epoch(env, k, st).next);
      |t.final.yielded| >= |Epoch(env, k, st).next.yielded| &&
      YieldsFrom(env.names, t.final.yielded, |Epoch(env, k, st).next.yielded|, env.model, k + 1)
    ensures var t := Run(env, k, epochs, st);
      |t.final.yielded| >= |st.yielded| && YieldsFrom(env.names, t.final.yielded, |st.yielded|, env.model, k)
  {
    var r := Epoch(env, k, st);
    var n := |st.yielded|;
    ReportedFloats(env.names, r.next.yielded[n], r.next.slots, env.model(k).loss);
    RunCounts(env, k + 1, epochs, r.next);
    var t := Run(env, k + 1, epochs, r.next);
    assert Run(env, k, epochs, st) == t;
    PrefixAt(t.final.yielded, r.next.yielded, n);
    YieldsShift(env.names, t.final.yielded, n, env.model, k);
  }

  /** A breaking epoch's yield is the last one of the call. */
  lemma YieldsStop(env: Env, k: nat, st: Progress)
    requires WellFormed(env) && Invariant(env, st) && Epoch(env, k, st).Stop?
    ensures var next := Epoch(env, k, st).next;
      |next.yielded| >= |st.yielded| && YieldsFrom(env.names, next.yielded, |st.yielded|, env.model, k)
  {
    var r := Epoch(env, k, st);
    var n := |st.yielded|;
    ReportedFloats(env.names, r.next.yielded[n], r.next.slots, env.model(k).loss);
    YieldsNone(env.names, r.next.yielded, env.model, k + 1);
    YieldsShift(env.names, r.next.yielded, n, env.model, k);
  }

  /**
   * The checkpoints saved from index `from` on: keyed by increasing steps in
   * (lo, hi], each with a validation NLL strictly below the one before it and
   * below `best0`, and none below the final best `best1`.
   */
  predicate SavesImprove(saves: seq<Checkpoint>, from: nat, lo: int, hi: int, best0: Float, best1: Float) {
    from <= |saves| &&
    (forall i :: from <= i < |saves| ==>
       lo < saves[i].step <= hi && "nll" in saves[i].slots &&
       Less(saves[i].slots["nll"], best0) && AtMost(best1, saves[i].slots["nll"])) &&
    (forall i, j :: from <= i < j < |saves| ==>
       saves[i].step < saves[j].step && Less(saves[j].slots["nll"], saves[i].slots["nll"]))
  }

  lemma LessAtMost(a: Float, b: Float, c: Float)
    requires Less(a, b) && AtMost(b, c)
    ensures Less(a, c)
  {
  }

  lemma SavesNone(saves: seq<Checkpoint>, lo: int, hi: int, best0: Float, best1: Float)
    ensures SavesImprove(saves, |saves|, lo, hi, best0, best1)
  {
  }

  /** Widening the step range and raising the starting best keeps the saves improving. */
  lemma SavesWeaken(saves: seq<Checkpoint>, from: nat, lo: int, hi: int, best0: Float, best1: Float, lo': int, best0': Float)
    requires SavesImprove(saves, from, lo, hi, best0, best1)
    requires lo' <= lo && AtMost(best0, best0')
    ensures SavesImprove(saves, from, lo', hi, best0', best1)
  {
    forall i | from <= i < |saves| ensures Less(saves[i].slots["nll"], best0') {
      LessAtMost(saves[i].slots["nll"], best0, best0');
    }
  }

  /** A save at step lo + 1 with an NLL below best0, followed by improving saves, improves. */
  lemma SavesPrepend(saves: seq<Checkpoint>, n: nat, lo: int, hi: int, best0: Float, best1: Float)
    requires n < |saves| && saves[n].step == lo + 1 && lo + 1 <= hi && "nll" in saves[n].slots
    requires Less(saves[n].slots["nll"], best0) && AtMost(best1, saves[n].slots["nll"])
    requires SavesImprove(saves, n + 1, lo + 1, hi, saves[n].slots["nll"], best1)
    ensures SavesImprove(saves, n, lo, hi, best0, best1)
  {
    var c := saves[n].slots["nll"];
    forall i | n < i < |saves| ensures Less(saves[i].slots["nll"], best0) {
      LessTransitive(saves[i].slots["nll"], c, best0);
    }
  }

  /**
   * What one epoch does to the checkpoints: nothing, or (with a manager only)
   * one save keyed by the incremented step whose NLL is the new best, strictly
   * below the old one.
   */
  predicate SavesStep(hasManager: bool, st: Progress, next: Progress) {
    next.steps == st.steps + 1 && AtMost(next.best, st.best) &&
    (next.saves == st.saves ||
     (hasManager && |next.saves| == |st.saves| + 1 && next.saves[..|st.saves|] == st.saves &&
      var c := next.saves[|st.saves|];
      c.step == st.steps + 1 && "nll" in c.slots && c.slots["nll"] == next.best && Less(next.best, st.best)))
  }

  lemma EpochSaves(env: Env, k: nat, st: Progress)
    requires WellFormed(env) && Invariant(env, st)
    ensures SavesStep(env.hasManager, st, Epoch(env, k, st).next)
  {
    var r := Epoch(env, k, st);
    if !r.Fail? && Tracking(env.hasManager, env.patience) && Less(r.next.slots["nll"], st.best) && env.hasManager {
      assert r.next.saves[..|st.saves|] == st.saves;
    }
  }

  /** One epoch's saves followed by improving saves from the rest of the call improve from the start. */
  lemma SavesCombine(hasManager: bool, st: Progress, next: Progress, fin: Progress)
    requires SavesStep(hasManager, st, next)
    requires next.steps <= fin.steps && AtMost(fin.best, next.best)
    requires |fin.saves| >= |next.saves| && fin.saves[..|next.saves|] == next.saves
    requires !hasManager ==> fin.saves == next.saves
    requires SavesImprove(fin.saves, |next.saves|, next.steps, fin.steps, next.best, fin.best)
    ensures |fin.saves| >= |st.saves| && fin.saves[..|st.saves|] == st.saves
    ensures !hasManager ==> fin.saves == st.saves
    ensures SavesImprove(fin.saves, |st.saves|, st.steps, fin.steps, st.best, fin.best)
  {
    assert fin.saves[..|st.saves|] == fin.saves[..|next.saves|][..|st.saves|];
    if next.saves == st.saves {
      SavesWeaken(fin.saves, |st.saves|, next.steps, fin.steps, next.best, fin.best, st.steps, st.best);
    } else {
      var n := |st.saves|;
      PrefixAt(fin.saves, next.saves, n);
      SavesPrepend(fin.saves, n, st.steps, fin.steps, st.best, fin.best);
    }
  }

  /**
   * Checkpoints are only ever appended, never without a manager, and each one
   * saved by the call records a strict improvement of the validation NLL, keyed
   * by a step counter that has already been incremented.
   */
  lemma {:induction false} RunSaves(env: Env, k: nat, epochs: int, st: Progress)
    requires WellFormed(env) && Invariant(env, st)
    decreases epochs - k
    ensures SavedFrom(env.hasManager, st, Run(env, k, epochs, st).final)
  {
    if k >= epochs {
      SavesNone(st.saves, st.steps, st.steps, st.best, st.best);
    } else {
      var r := Epoch(env, k, st);
      if r.Continue? {
        RunSaves(env, k + 1, epochs, r.next);
        SavesContinue(env, k, epochs, st);
      } else {
        SavesEnd(env, k, epochs, st);
      }
    }
  }

  /** An epoch that breaks or raises ends the call with its own saves. */
  lemma SavesEnd(env: Env, k: nat, epochs: int, st: Progress)
    requires WellFormed(env) && Invariant(env, st) && k < epochs && !Epoch(env, k, st).Continue?
    ensures SavedFrom(env.hasManager, st, Run(env, k, epochs, st).final)
  {
    var r := Epoch(env, k, st);
    EpochSaves(env, k, st);
    RunStep(env, k, epochs, st);
    SavesNone(st.saves, st.steps, r.next.steps, st.best, r.next.best);
  }

  /**
   * What `RunSaves` states about a call that starts in `st` and ends in `fin`:
   * the saves are only appended to, never without a manager, and every new one improves.
   */
  ghost predicate SavedFrom(hasManager: bool, st: Progress, fin: Progress) {
    |fin.saves| >= |st.saves| && fin.saves[..|st.saves|] == st.saves &&
    (!hasManager ==> fin.saves == st.saves) &&
    SavesImprove(fin.saves, |st.saves|, st.steps, fin.steps, st.best, fin.best)
  }

  /** A continuing epoch's saves followed by those of the rest of the call. */
  lemma SavesContinue(env: Env, k: nat, epochs: int, st: Progress)
    requires WellFormed(env) && Invariant(env, st) && k < epochs && Epoch(env, k, st).Continue?
    requires SavedFrom(env.hasManager, Epoch(env, k, st).next, Run(env, k + 1, epochs, Epoch(env, k, st).next).final)
    ensures SavedFrom(env.hasManager, st, Run(env, k, epochs, st).final)
  {
    var r := Epoch(env, k, st);
    EpochSaves(env, k, st);
    RunCounts(env, k + 1, epochs, r.next);
    RunStep(env, k, epochs, st);
    var t := Run(env, k + 1, epochs, r.next);
    CountedFacts(env, k + 1, epochs, r.next, t);
    SavesCombine(env.hasManager, st, r.next, t.final);
  }

  /** A name `getattr` cannot resolve stops the call in its first epoch, after one step and before any yield. */
  lemma InvalidMetricFailsAtOnce(env: Env, k: nat, epochs: int, st: Progress)
    requires WellFormed(env) && Invariant(env, st) && k < epochs
    requires FirstInvalid(env.names).Some?
    ensures var t := Run(env, k, epochs, st);
      t.outcome == Failed(InvalidMetric(FirstInvalid(env.names).value)) &&
      t.final == st.(steps := st.steps + 1, loss := env.model(k).loss,
                     cache := Refresh(st.cache, env.names, env.deps, env.model(k)))
  {
  }

  /**
   * A name that resolves but has no slot (`residuals`, `pis`, any other
   * member) raises in the first epoch, after one step and before any yield.
   */
  lemma MissingSlotFailsAtOnce(env: Env, k: nat, epochs: int, st: Progress, i: nat)
    requires WellFormed(env) && Invariant(env, st) && k < epochs
    requires FirstInvalid(env.names).None? && FirstOutside(env.names, Slots, i)
    ensures var t := Run(env, k, epochs, st);
      t.outcome == Failed(MissingSlot(env.names[i])) &&
      t.final.steps == st.steps + 1 && t.final.yielded == st.yielded && t.final.saves == st.saves
  {
    var r := Epoch(env, k, st);
    assert !AllSlots(env.names);
    var st1 := Advance(env, k, st);
    var m := Measure(env, k, st1);
    assert r == Fail(m.error, m.next);
  }

  /** The number of epochs without improvement the loop runs before it breaks. */
  function EpochsToStop(patience: int, since: int): (r: int)
    ensures r >= 1 && since + r >= patience
    ensures r > 1 ==> since + r - 1 < patience
  {
    if patience - since >= 1 then patience - since else 1
  }

  /**
   * Early stopping: with a truthy patience and no later epoch bringing the NLL
   * strictly below the best, the loop yields `EpochsToStop(patience, since)`
   * more dictionaries and breaks off, provided the epochs last that long. From
   * the start of a call (`since` = 1) that is patience - 1 epochs for a
   * patience of 2 or more.
   */
  lemma {:induction false} EarlyStop(env: Env, k: nat, epochs: int, st: Progress)
    requires WellFormed(env) && Invariant(env, st)
    requires Truthy(env.patience) && AllSlots(env.names) && "nll" in env.names
    requires forall j: nat :: k <= j ==> !Less(env.model(j).nll, st.best)
    requires epochs - k >= EpochsToStop(env.patience.value, st.since)
    decreases epochs - k
    ensures var t := Run(env, k, epochs, st);
      t.outcome == Completed && t.final.best == st.best && t.final.saves == st.saves &&
      t.final.steps == st.steps + EpochsToStop(env.patience.value, st.since) &&
      |t.final.yielded| == |st.yielded| + EpochsToStop(env.patience.value, st.since)
  {
    var r := Epoch(env, k, st);
    EpochWithoutImprovement(env, k, st);
    if r.Continue? {
      assert EpochsToStop(env.patience.value, st.since) == EpochsToStop(env.patience.value, r.next.since) + 1;
      EarlyStop(env, k + 1, epochs, r.next);
      EarlyStopContinue(env, k, epochs, st);
    }
  }

  /** A non-improving epoch that does not break leaves one epoch fewer to the break. */
  lemma EarlyStopContinue(env: Env, k: nat, epochs: int, st: Progress)
    requires WellFormed(env) && Invariant(env, st) && k < epochs
    requires Truthy(env.patience) && Epoch(env, k, st).Continue?
    requires var r := Epoch(env, k, st);
      r.next.best == st.best && r.next.saves == st.saves && r.next.since == st.since + 1 &&
      r.next.steps == st.steps + 1 && |r.next.yielded| == |st.yielded| + 1 && st.since + 1 < env.patience.value
    requires var r := Epoch(env, k, st); var t := Run(env, k + 1, epochs, r.next);
      t.outcome == Completed && t.final.best == r.next.best && t.final.saves == r.next.saves &&
      t.final.steps == r.next.steps + EpochsToStop(env.patience.value, r.next.since) &&
      |t.final.yielded| == |r.next.yielded| + EpochsToStop(env.patience.value, r.next.since)
    ensures var t := Run(env, k, epochs, st);
      t.outcome == Completed && t.final.best == st.best && t.final.saves == st.saves &&
      t.final.steps == st.steps + EpochsToStop(env.patience.value, st.since) &&
      |t.final.yielded| == |st.yielded| + EpochsToStop(env.patience.value, st.since)
  {
    assert Run(env, k, epochs, st) == Run(env, k + 1, epochs, Epoch(env, k, st).next);
  }

  /** One epoch whose NLL does not beat the best, under a truthy patience. */
  lemma EpochWithoutImprovement(env: Env, k: nat, st: Progress)
    requires WellFormed(env) && Invariant(env, st)
    requires Truthy(env.patience) && AllSlots(env.names) && "nll" in env.names
    requires !Less(env.model(k).nll, st.best)
    ensures var r := Epoch(env, k, st);
      !r.Fail? && r.next.best == st.best && r.next.saves == st.saves &&
      r.next.since == st.since + 1 && r.next.steps == st.steps + 1 &&
      |r.next.yielded| == |st.yielded| + 1 &&
      (r.Stop? <==> st.since + 1 >= env.patience.value)
  {
  }

  /** A patience of 0 is falsy: the call behaves exactly as with no patience. */
  lemma {:induction false} PatienceZeroIsNone(env: Env, k: nat, epochs: int, st: Progress)
    requires WellFormed(env) && Invariant(env, st)
    decreases epochs - k
    ensures Run(env.(patience := Some(0)), k, epochs, st) == Run(env.(patience := None), k, epochs, st)
  {
    var e0, e1 := env.(patience := Some(0)), env.(patience := None);
    if k < epochs {
      EpochPatienceZero(env, k, st);
      if Epoch(e0, k, st).Continue? {
        PatienceZeroIsNone(env, k + 1, epochs, Epoch(e0, k, st).next);
      }
    }
  }

  /** One epoch under a patience of 0 is the epoch under no patience. */
  lemma EpochPatienceZero(env: Env, k: nat, st: Progress)
    requires WellFormed(env) && Invariant(env, st)
    ensures Epoch(env.(patience := Some(0)), k, st) == Epoch(env.(patience := None), k, st)
  {
    var e0, e1 := env.(patience := Some(0)), env.(patience := None);
    var st1 := Advance(env, k, st);
    assert Advance(e0, k, st) == st1 && Advance(e1, k, st) == st1;
    if FirstInvalid(env.names).None? {
      assert Measure(e0, k, st1) == Measure(env, k, st1) == Measure(e1, k, st1);
      var m := Measure(env, k, st1);
      if m.Continue? {
        TrackPatienceZero(env, m.next);
      }
    }
  }

  /** Tracking reads the patience only through its truthiness, and 0 is falsy. */
  lemma TrackPatienceZero(env: Env, st: Progress)
    requires "nll" in st.slots && !st.best.NaN?
    ensures Track(env.(patience := Some(0)), st) == Track(env.(patience := None), st)
  {
  }

  /** A cached prediction the requested metrics do not need is never refreshed during the call. */
  lemma {:induction false} CacheKept(env: Env, k: nat, epochs: int, st: Progress)
    requires WellFormed(env) && Invariant(env, st)
    decreases epochs - k
    ensures !NeedsMean(env.names, env.deps) ==> Run(env, k, epochs, st).final.cache.mean == st.cache.mean
    ensures !NeedsStddev(env.names, env.deps) ==> Run(env, k, epochs, st).final.cache.stddevs == st.cache.stddevs
  {
    if k < epochs {
      var r := Epoch(env, k, st);
      if r.Continue? {
        CacheKept(env, k + 1, epochs, r.next);
      }
    }
  }

  /**
   * What the standard-normal quantiles of `linspace(0, 1, 100)` satisfy: a
   * bound is positive exactly when its level is above one half.
   */
  ghost predicate QuantileSigns(bounds: seq<Float>) {
    |bounds| == 100 && forall j :: 0 <= j < 100 ==> (Less(Num(0.0), bounds[j]) <==> Levels()[j] > 0.5)
  }

  /** With a single validation point each observed coverage is 1 or 0, as the bound covers its normalised residual or not. */
  lemma OnePointCoverage(p: Predictions, v: Validation, x: Float)
    requires Fits(p, v) && |p.mean| == 1 && Normalised(p.mean, v.obs, p.stddevs) == [x]
    ensures forall j :: 0 <= j < 100 ==>
      Pis(p, v).observed[j] == Num(if AtMost(x, v.bounds[j]) then 1.0 else 0.0)
  {
    assert [x][1..] == [];
    forall j | 0 <= j < 100
      ensures Pis(p, v).observed[j] == Num(if AtMost(x, v.bounds[j]) then 1.0 else 0.0)
    {
      PisAt(p, v, j);
    }
  }

  /**
   * At one level, the squared gap for a residual of 1.0 is at most the one for
   * a residual of 2.0, and strictly below it where the bound lies in [1, 2).
   */
  lemma LevelGapSquares(l: real, b: Float, x: real, y: real)
    requires Less(Num(0.0), b) <==> l > 0.5
    requires x == l - (if AtMost(Num(1.0), b) then 1.0 else 0.0)
    requires y == l - (if AtMost(Num(2.0), b) then 1.0 else 0.0)
    ensures SquareAtMost(x, y)
    ensures b.Num? && 1.0 <= b.v < 2.0 ==> SquareBelow(x, y)
  {
    if AtMost(Num(2.0), b) {
      AtMostTransitive(Num(1.0), Num(2.0), b);
    } else if AtMost(Num(1.0), b) {
      assert l > 0.5 && x == l - 1.0 && y == l;
      assert x * x == l * l - 2.0 * l + 1.0;
    }
  }

  /**
   * One validation point observed at 0.0 and predicted at 1.0: with the stddev
   * the cache was built with (1.0) the normalised residual is 1.0; with the
   * stddev after training (0.5) it is 2.0. For quantile bounds of which one
   * lies in [1, 2) (the level 90/99 has the normal quantile 1.335), the
   * calibration error computed from the stale stddev is strictly below the one
   * of the current model: the stale cache understates it.
   */
  lemma StaleCalibrationUnderstates(bounds: seq<Float>, sqrt: real -> real)
    requires QuantileSigns(bounds)
    requires exists m :: 0 <= m < 100 && bounds[m].Num? && 1.0 <= bounds[m].v < 2.0
    ensures var v := Validation([0.0], bounds, sqrt);
      var stale, current := CalibrationErr(Predictions([1.0], [1.0]), v), CalibrationErr(Predictions([1.0], [0.5]), v);
      stale.Num? && current.Num? && stale.v < current.v
  {
    var v := Validation([0.0], bounds, sqrt);
    var p, q := Predictions([1.0], [1.0]), Predictions([1.0], [0.5]);
    assert Normalised(p.mean, v.obs, p.stddevs) == [Num(1.0)];
    assert Normalised(q.mean, v.obs, q.stddevs) == [Num(2.0)];
    OnePointCalibration(p, v, Num(1.0));
    OnePointCalibration(q, v, Num(2.0));
    var gs, gc := OnePointGaps(Num(1.0), bounds), OnePointGaps(Num(2.0), bounds);
    forall j | 0 <= j < 100
      ensures SquareAtMost(gs[j], gc[j])
      ensures bounds[j].Num? && 1.0 <= bounds[j].v < 2.0 ==> SquareBelow(gs[j], gc[j])
    {
      LevelGapSquares(Levels()[j], bounds[j], gs[j], gc[j]);
    }
    var m :| 0 <= m < 100 && bounds[m].Num? && 1.0 <= bounds[m].v < 2.0;
    SumSquaresBelow(gs, gc, m);
  }

  /** The gaps between the levels and the 1-or-0 coverage of a single normalised residual x. */
  function OnePointGaps(x: Float, bounds: seq<Float>): (r: seq<real>)
    requires |bounds| == 100
    ensures |r| == 100
    ensures forall j :: 0 <= j < 100 ==> r[j] == Levels()[j] - (if AtMost(x, bounds[j]) then 1.0 else 0.0)
  {
    seq(100, j requires 0 <= j < 100 => Levels()[j] - (if AtMost(x, bounds[j]) then 1.0 else 0.0))
  }

  /** With a single validation point the calibration error is the sum of the squared one-point gaps. */
  lemma OnePointCalibration(p: Predictions, v: Validation, x: Float)
    requires Fits(p, v) && |p.mean| == 1 && Normalised(p.mean, v.obs, p.stddevs) == [x]
    ensures CalibrationErr(p, v) == Num(SumSquares(OnePointGaps(x, v.bounds)))
  {
    var ps := Pis(p, v);
    OnePointGapsAre(p, v, x);
    GapsFinite(ps.predicted, ps.observed);
  }

  lemma OnePointGapsAre(p: Predictions, v: Validation, x: Float)
    requires Fits(p, v) && |p.mean| == 1 && Normalised(p.mean, v.obs, p.stddevs) == [x]
    ensures forall j :: 0 <= j < 100 ==> Pis(p, v).observed[j].Num?
    ensures Gaps(Pis(p, v).predicted, Pis(p, v).observed) == OnePointGaps(x, v.bounds)
  {
    var ps := Pis(p, v);
    OnePointCoverage(p, v, x);
    var g, h := Gaps(ps.predicted, ps.observed), OnePointGaps(x, v.bounds);
    forall j | 0 <= j < 100 ensures g[j] == h[j] {
      assert ps.observed[j] == Num(if AtMost(x, v.bounds[j]) then 1.0 else 0.0);
    }
    assert g == h;
  }

  /** The predictions of the model as it is after the k-th step. */
  function Current(o: EpochOracle): Predictions {
    Predictions(o.mean, o.stddevs)
  }

  /**
   * As written: when `calibration_err` is requested with neither `sharpness`
   * nor `variation`, the stddevs are never refreshed, and the value stored and
   * yielded is computed from the current means and the stddevs the cache held
   * before the epoch (on every epoch of a call, those the model had when the call began).
   */
  lemma SourceTableKeepsStddevs(env: Env, k: nat, st: Progress)
    requires WellFormed(env) && Invariant(env, st) && env.deps == SourceDependencies
    requires AllSlots(env.names) && "calibration_err" in env.names && !NeedsStddev(env.names, env.deps)
    ensures var r := Epoch(env, k, st);
      r.next.cache == Predictions(env.model(k).mean, st.cache.stddevs) &&
      r.next.slots["calibration_err"] == CalibrationErr(Predictions(env.model(k).mean, st.cache.stddevs), env.v)
  {
    var r := Epoch(env, k, st);
    assert "calibration_err" in SourceDependencies.mean * Names(env.names);
    var i :| 0 <= i < |env.names| && env.names[i] == "calibration_err";
  }

  /**
   * The call that shows it: one validation point, the metric list
   * ["calibration_err"], a cache built while the stddev was 1.0 and a first
   * step after which it is 0.5. The stored calibration error is strictly below
   * the one of the model after the step.
   */
  lemma SourceTableReportsStaleCalibration(bounds: seq<Float>, sqrt: real -> real)
    requires QuantileSigns(bounds)
    requires exists m :: 0 <= m < 100 && bounds[m].Num? && 1.0 <= bounds[m].v < 2.0
    ensures var v := Validation([0.0], bounds, sqrt);
      var env := Env(["calibration_err"], false, None, SourceDependencies, v,
                     (k: nat) => EpochOracle(Num(0.0), Num(0.0), [1.0], [0.5]));
      var st := Progress(0, NaN, Unset(), Predictions([1.0], [1.0]), PosInf, 1, [], []);
      WellFormed(env) && Invariant(env, st) &&
      var stored, current := Epoch(env, 0, st).next.slots["calibration_err"], CalibrationErr(Current(env.model(0)), v);
      stored.Num? && current.Num? && stored.v < current.v
  {
    var v := Validation([0.0], bounds, sqrt);
    var env := Env(["calibration_err"], false, None, SourceDependencies, v,
                   (k: nat) => EpochOracle(Num(0.0), Num(0.0), [1.0], [0.5]));
    var st := Progress(0, NaN, Unset(), Predictions([1.0], [1.0]), PosInf, 1, [], []);
    assert !NeedsStddev(env.names, env.deps) by {
      assert Names(env.names) == {"calibration_err"};
    }
    SourceTableKeepsStddevs(env, 0, st);
    StaleCalibrationUnderstates(bounds, sqrt);
  }

  /**
   * Corrected: with the table that lists every metric under the predictions it
   * reads, each value stored and yielded in an epoch is the metric of the model
   * as it is after that epoch's step, whatever the cache held before.
   */
  lemma IntendedTableIsCurrent(env: Env, k: nat, st: Progress)
    requires WellFormed(env) && Invariant(env, st) && env.deps == IntendedDependencies
    requires AllSlots(env.names)
    ensures var r := Epoch(env, k, st);
      StoredFrom(env.names, r.next.slots, Current(env.model(k)), env.v, env.model(k).nll)
  {
    var r := Epoch(env, k, st);
    var o := env.model(k);
    forall i | 0 <= i < |env.names|
      ensures Number(r.next.slots[env.names[i]]) == Attribute(env.names[i], Current(o), env.v, o.nll)
    {
      RefreshedIsCurrent(st.cache, env.names, o, env.v, env.names[i]);
    }
  }

  /** The intended table lists each metric under exactly the predictions it reads. */
  lemma IntendedMatchesReaders()
    ensures IntendedDependencies.mean == MeanReaders && IntendedDependencies.stddev == StddevReaders
  {
  }

  /**
   * After the refresh the intended table calls for, every requested metric
   * computed from the cache equals the metric of the current model.
   */
  lemma RefreshedIsCurrent(cache: Predictions, names: seq<string>, o: EpochOracle, v: Validation, n: string)
    requires Fits(cache, v) && Fits(Current(o), v) && n in names
    ensures var c := Refresh(cache, names, IntendedDependencies, o);
      Fits(c, v) && Attribute(n, c, v, o.nll) == Attribute(n, Current(o), v, o.nll)
  {
    IntendedMatchesReaders();
    var c := Refresh(cache, names, IntendedDependencies, o);
    var mid := Predictions(o.mean, c.stddevs);
    assert n in Names(names);
    if n in MeanReaders {
      assert n in IntendedDependencies.mean * Names(names);
    }
    AttributeReads(n, c, mid, v, o.nll);
    if n in StddevReaders {
      assert n in IntendedDependencies.stddev * Names(names);
    }
    AttributeReads(n, mid, Current(o), v, o.nll);
  }

  /** A Python list of metric names, which `train_model` appends to in place. */
  class MetricList {
    var names: seq<string>

    constructor (names: seq<string>)
      ensures this.names == names
    {
      this.names := names;
    }
  }

  /** The metric slots of a freshly built trainer: every one NaN. */
  function Unset(): (r: map<string, Float>)
    ensures r.Keys == Slots && forall n :: n in r ==> r[n] == NaN
  {
    map n | n in Slots :: NaN
  }

  /** Python truthiness of the optional `save_dir`. */
  predicate NonEmptyDir(dir: Option<string>) {
    dir.Some? && dir.value != ""
  }

  /** The inputs of a call agree in shape: one prediction per validation point, 100 bounds. */
  ghost predicate Consistent(v: Validation, initial: Predictions, model: nat -> EpochOracle) {
    |v.bounds| == 100 && Fits(initial, v) && forall k: nat :: Fits(Current(model(k)), v)
  }

  /**
   * A call of `epochs` epochs from the state `p0` ended where `Run` ends: the
   * same outcome, yielded dictionaries, step counter, loss, slots and saves.
   */
  ghost predicate EndsAsRun(env: Env, epochs: int, p0: Progress, outcome: Outcome, yielded: seq<map<string, Value>>,
                            steps: int, loss: Float, slots: map<string, Float>, saves: seq<Checkpoint>) {
    WellFormed(env) && Invariant(env, p0) &&
    var t := Run(env, 0, epochs, p0);
    outcome == t.outcome && yielded == t.final.yielded && steps == t.final.steps &&
    loss == t.final.loss && slots == t.final.slots && saves == t.final.saves
  }

  /**
   * The state of a GPTrainer that training reads and writes: the step counter,
   * the training loss, the metric slots, and what it has written out. Its loop
   * refreshes the cache by the table it is given; `TrainModel` gives it the
   * class's own `REQUIRES_MEAN` and `REQUIRES_STDDEV`.
   */
  class Trainer {
    const hasManager: bool
    var trainingSteps: int
    var loss: Float
    var slots: map<string, Float>
    var saves: seq<Checkpoint>   // every `ckpt_manager.save`, the last being the one kept
    var exports: seq<Export>     // every `tf.saved_model.save`

    predicate Valid()
      reads this
    {
      slots.Keys == Slots
    }

    /**
     * The step counter starts at 0, the loss and the metric slots at NaN; with
     * a checkpoint directory that holds a checkpoint, they are restored from it.
     */
    constructor (checkpointDir: bool, latest: Option<Checkpoint>)
      requires latest.Some? ==> latest.value.slots.Keys == Slots
      ensures Valid() && hasManager == checkpointDir && saves == [] && exports == []
      ensures checkpointDir && latest.Some? ==>
        trainingSteps == latest.value.step && loss == latest.value.loss && slots == latest.value.slots
      ensures !(checkpointDir && latest.Some?) ==> trainingSteps == 0 && loss == NaN && slots == Unset()
    {
      hasManager := checkpointDir;
      saves := [];
      exports := [];
      if checkpointDir && latest.Some? {
        trainingSteps := latest.value.step;
        loss := latest.value.loss;
        slots := latest.value.slots;
      } else {
        trainingSteps := 0;
        loss := NaN;
        slots := Unset();
      }
    }

    /** Where a call starts: the stored state, the fresh cache, the best NLL and a counter of 1. */
    function Start(initial: Predictions): (r: Progress)
      reads this
      requires Valid()
      ensures r.steps == trainingSteps && r.loss == loss && r.slots == slots && r.saves == saves
      ensures r.cache == initial && r.since == 1 && r.yielded == []
      // A stored NaN NLL counts as +inf, so the first real NLL is an improvement.
      ensures !r.best.NaN? && (slots["nll"].NaN? ==> r.best == PosInf) && (!slots["nll"].NaN? ==> r.best == slots["nll"])
    {
      Progress(trainingSteps, loss, slots, initial, InitialBest(slots), 1, saves, [])
    }

    /** `for metric, value in metric_dict.items(): self.metrics[metric].assign(value)`. */
    method AssignMetrics(names: seq<string>, dict: map<string, Value>) returns (missing: Option<string>)
      requires Valid()
      requires forall i :: 0 <= i < |names| ==> names[i] in dict
      requires forall n :: n in dict && n in Slots ==> dict[n].Number?
      modifies this
      ensures Valid()
      ensures (slots, missing) == AssignSlots(old(slots), names, dict)
      ensures trainingSteps == old(trainingSteps) && loss == old(loss)
      ensures saves == old(saves) && exports == old(exports)
    {
      var written := slots;
      missing := None;
      var j := 0;
      while j < |names| && missing.None?
        invariant 0 <= j <= |names| && written.Keys == Slots
        invariant missing.None? ==> AssignSlots(written, names[j..], dict) == AssignSlots(slots, names, dict)
        invariant missing.Some? ==> (written, missing) == AssignSlots(slots, names, dict)
        modifies {}
      {
        AssignSlotsStep(written, names[j..], dict);
        assert names[j..][0] == names[j] && names[j..][1..] == names[j + 1..];
        if names[j] in written {
          written := written[names[j] := dict[names[j]].x];
        } else {
          missing := Some(names[j]);
        }
        j := j + 1;
      }
      if missing.None? {
        assert names[j..] == [];
      }
      slots := written;
    }

    /**
     * The part of the loop body after the step: the metric dictionary, the
     * slot assignments and the yield.
     */
    method RecordMetrics(env: Env, k: nat, ghost st: Progress, cache: Predictions, yielded: seq<map<string, Value>>)
      returns (missing: Option<string>, yielded': seq<map<string, Value>>)
      requires Valid() && WellFormed(env) && Invariant(env, st) && FirstInvalid(env.names).None?
      requires st.slots == slots && st.loss == loss && st.cache == cache && st.yielded == yielded
      modifies this
      ensures Valid()
      ensures var r := Measure(env, k, st);
        (missing.Some? <==> r.Fail?) && (missing.Some? ==> r.error == MissingSlot(missing.value)) &&
        slots == r.next.slots && yielded' == r.next.yielded
      ensures trainingSteps == old(trainingSteps) && loss == old(loss)
      ensures saves == old(saves) && exports == old(exports)
    {
      var dict := MetricDict(env.names, cache, env.v, env.model(k).nll);
      missing := AssignMetrics(env.names, dict);
      yielded' := yielded;
      if missing.None? {
        yielded' := yielded + [Snapshot(dict, loss)];
      }
    }

    /** The part of the loop body after the yield: best NLL, counter, checkpoint, break. */
    method TrackNll(env: Env, ghost st: Progress, best: Float, since: int) returns (best': Float, since': int, stop: bool)
      requires Valid() && !best.NaN? && hasManager == env.hasManager
      requires st.slots == slots && st.steps == trainingSteps && st.loss == loss && st.saves == saves
      requires st.best == best && st.since == since
      modifies this
      ensures Valid()
      ensures var r := Track(env, st);
        best' == r.next.best && since' == r.next.since && saves == r.next.saves && stop == r.Stop?
      ensures trainingSteps == old(trainingSteps) && loss == old(loss) && slots == old(slots)
      ensures exports == old(exports)
    {
      best', since', stop := best, since, false;
      if Tracking(hasManager, env.patience) {
        if Less(slots["nll"], best) {
          best' := slots["nll"];
          since' := 1;
          if hasManager {
            saves := saves + [Checkpoint(trainingSteps, loss, slots)];
          }
        } else {
          since' := since + 1;
          if Truthy(env.patience) && since' >= env.patience.value {
            stop := true;
          }
        }
      }
    }

    /** One pass of the loop body; `failure` is the exception it raises, if any. */
    method TrainEpoch(env: Env, k: nat, gp: Metrics, best: Float, since: int, yielded: seq<map<string, Value>>)
      returns (failure: Option<TrainError>, stop: bool, best': Float, since': int, yielded': seq<map<string, Value>>)
      requires Valid() && WellFormed(env) && hasManager == env.hasManager
      requires gp.validation == env.v
      requires Invariant(env, Progress(trainingSteps, loss, slots, gp.Current(), best, since, saves, yielded))
      modifies this, gp
      ensures Valid() && gp.validation == env.v && exports == old(exports)
      ensures var st := Progress(old(trainingSteps), old(loss), old(slots), old(gp.Current()), best, since, old(saves), yielded);
        var r := Epoch(env, k, st);
        Progress(trainingSteps, loss, slots, gp.Current(), best', since', saves, yielded') == r.next &&
        (failure.Some? <==> r.Fail?) && (failure.Some? ==> failure.value == r.error) && (stop <==> r.Stop?)
    {
      ghost var st := Progress(trainingSteps, loss, slots, gp.Current(), best, since, saves, yielded);
      loss := env.model(k).loss;
      trainingSteps := trainingSteps + 1;
      if NeedsMean(env.names, env.deps) {
        gp.UpdateMean(env.model(k).mean);
      }
      if NeedsStddev(env.names, env.deps) {
        gp.UpdateStddevs(env.model(k).stddevs);
      }
      ghost var st1 := Progress(trainingSteps, loss, slots, gp.Current(), best, since, saves, yielded);
      assert st1 == Advance(env, k, st);
      failure, stop, best', since', yielded' := FinishEpoch(env, k, st1, gp.Current(), best, since, yielded);
    }

    /** The loop body after the step and the refresh, run on the trainer's fields. */
    method FinishEpoch(env: Env, k: nat, ghost st1: Progress, cache: Predictions, best: Float, since: int,
                       yielded: seq<map<string, Value>>)
      returns (failure: Option<TrainError>, stop: bool, best': Float, since': int, yielded': seq<map<string, Value>>)
      requires Valid() && WellFormed(env) && Invariant(env, st1) && hasManager == env.hasManager
      requires st1 == Progress(trainingSteps, loss, slots, cache, best, since, saves, yielded)
      modifies this
      ensures Valid() && exports == old(exports)
      ensures var r := Finish(env, k, st1);
        Progress(trainingSteps, loss, slots, cache, best', since', saves, yielded') == r.next &&
        (failure.Some? <==> r.Fail?) && (failure.Some? ==> failure.value == r.error) && (stop <==> r.Stop?)
    {
      failure, stop, best', since', yielded' := None, false, best, since, yielded;
      var bad := FirstInvalid(env.names);
      if bad.Some? {
        failure := Some(InvalidMetric(bad.value));
      } else {
        var missing;
        missing, yielded' := RecordMetrics(env, k, st1, cache, yielded);
        if missing.Some? {
          failure := Some(MissingSlot(missing.value));
        } else {
          best', since', stop := TrackNll(env, Measure(env, k, st1).next, best, since);
        }
      }
    }

    /** The epoch loop of `train_model`, from the state `p0` the call starts in. */
    method RunEpochs(env: Env, gp: Metrics, epochs: int, ghost p0: Progress, best: Float, since: int)
      returns (outcome: Outcome, yielded: seq<map<string, Value>>)
      requires Valid() && WellFormed(env) && hasManager == env.hasManager
      requires gp.validation == env.v
      requires p0 == Progress(trainingSteps, loss, slots, gp.Current(), best, since, saves, []) && Invariant(env, p0)
      modifies this, gp
      ensures Valid() && exports == old(exports)
      ensures EndsAsRun(env, epochs, p0, outcome, yielded, trainingSteps, loss, slots, saves)
    {
      var best, since := best, since;
      outcome, yielded := Completed, [];
      var stopped := false;
      var i := 0;
      while i < epochs && outcome.Completed? && !stopped
        invariant 0 <= i
        invariant Valid() && gp.validation == env.v && exports == old(exports)
        invariant var st := Progress(trainingSteps, loss, slots, gp.Current(), best, since, saves, yielded);
          Invariant(env, st) &&
          if outcome.Completed? && !stopped then Run(env, i, epochs, st) == Run(env, 0, epochs, p0)
          else Trace(outcome, st) == Run(env, 0, epochs, p0)
      {
        var failure;
        failure, stopped, best, since, yielded := TrainEpoch(env, i, gp, best, since, yielded);
        if failure.Some? {
          outcome := Failed(failure.value);
        }
        i := i + 1;
      }
    }

    /**
     * `train_model`, with the generator drained: appends "nll" to the caller's
     * list when it tracks the NLL, runs the epochs, and exports the model when
     * the loop ends without raising and a save directory is given.
     */
    method TrainModel(metrics: MetricList, v: Validation, initial: Predictions, model: nat -> EpochOracle,
                      epochs: int, patience: Option<int>, saveDir: Option<string>)
      returns (outcome: Outcome, yielded: seq<map<string, Value>>)
      requires Valid() && Consistent(v, initial, model)
      modifies this, metrics
      ensures Valid()
      ensures metrics.names == WithNll(old(metrics.names), Tracking(hasManager, patience))
      ensures var env := Env(metrics.names, hasManager, patience, SourceDependencies, v, model);
        EndsAsRun(env, epochs, old(Start(initial)), outcome, yielded, trainingSteps, loss, slots, saves)
      ensures exports == old(exports) + if outcome.Completed? && NonEmptyDir(saveDir) then [Export(saveDir.value, trainingSteps)] else []
    {
      if Tracking(hasManager, patience) && "nll" !in metrics.names {
        metrics.names := metrics.names + ["nll"];
      }
      var env := Env(metrics.names, hasManager, patience, SourceDependencies, v, model);
      var best := InitialBest(slots);
      var gp := new Metrics(v, initial);
      ghost var p0 := Start(initial);
      assert p0 == Progress(trainingSteps, loss, slots, gp.Current(), best, 1, saves, []);
      outcome, yielded := RunEpochs(env, gp, epochs, p0, best, 1);
      if outcome.Completed? && NonEmptyDir(saveDir) {
        exports := exports + [Export(saveDir.value, trainingSteps)];
      }
    }
  }
}
