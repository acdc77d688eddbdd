/** The process-wide model handle both Whisper services keep in a global:
    `load_model()` calls the loader only while the handle is still `None`,
    and afterwards hands back the model it already holds. */
module LazyModel {
  import opened Base

  /** What the loader call (`whisper.load_model("tiny")`) does. */
  datatype LoadOutcome<M> = Loaded(model: M) | LoadRaised(message: string)

  /** One call of `load_model()`: its outcome, the handle afterwards, and
      whether the loader was invoked. */
  datatype LoadStep<M> = LoadStep(result: LoadOutcome<M>, slot: Option<M>, loaderCalled: bool)

  /** `load_model()` with handle `slot`; `loader` is what the loader call
      would do if it were made. */
  function Load<M>(slot: Option<M>, loader: LoadOutcome<M>): (s: LoadStep<M>)
    ensures s.loaderCalled <==> slot.None?
    ensures slot.Some? ==> s.result == Loaded(slot.value) && s.slot == slot
    ensures s.result.Loaded? <==> s.slot.Some?
    ensures s.slot.Some? ==> s.result == Loaded(s.slot.value)
    ensures s.result.LoadRaised? ==> s.result == loader && s.slot.None?
  {
    match slot
    case Some(m) => LoadStep(Loaded(m), slot, false)
    case None =>
      match loader
      case Loaded(m) => LoadStep(loader, Some(m), true)
      case LoadRaised(_) => LoadStep(loader, None, true)
  }

  /** A sequence of `load_model()` calls; `loaders[k]` is what the loader
      would do on the k-th call. */
  function Run<M>(slot: Option<M>, loaders: seq<LoadOutcome<M>>): (steps: seq<LoadStep<M>>)
    ensures |steps| == |loaders|
    decreases |loaders|
  {
    if |loaders| == 0 then []
    else
      var s := Load(slot, loaders[0]);
      [s] + Run(s.slot, loaders[1..])
  }

  /** How many calls initialised the handle. */
  function Initialisations<M>(steps: seq<LoadStep<M>>): nat {
    if |steps| == 0 then 0
    else (if steps[0].loaderCalled && steps[0].result.Loaded? then 1 else 0) + Initialisations(steps[1..])
  }

  /** Once the handle holds a model, no later call invokes the loader and
      every call returns that model. */
  lemma {:induction false} HeldModelIsReused<M>(m: M, loaders: seq<LoadOutcome<M>>)
    ensures forall k :: 0 <= k < |loaders| ==>
      Run(Some(m), loaders)[k] == LoadStep(Loaded(m), Some(m), false)
    decreases |loaders|
  {
    if |loaders| > 0 {
      HeldModelIsReused(m, loaders[1..]);
      var steps := Run(Some(m), loaders);
      assert steps == [LoadStep(Loaded(m), Some(m), false)] + Run(Some(m), loaders[1..]);
    }
  }

  lemma {:induction false} NoInitialisationWhenHeld<M>(m: M, loaders: seq<LoadOutcome<M>>)
    ensures Initialisations(Run(Some(m), loaders)) == 0
    decreases |loaders|
  {
    if |loaders| > 0 {
      NoInitialisationWhenHeld(m, loaders[1..]);
    }
  }

  /** The model is initialised at most once over any sequence of calls, and
      never when the handle already holds one; every call that returns a
      model returns the same one. */
  lemma {:induction false} LoadsAtMostOnce<M>(slot: Option<M>, loaders: seq<LoadOutcome<M>>)
    ensures Initialisations(Run(slot, loaders)) <= (if slot.None? then 1 else 0)
    ensures forall i, j ::
      (0 <= i < j < |loaders| && Run(slot, loaders)[i].result.Loaded? && Run(slot, loaders)[j].result.Loaded?) ==>
      Run(slot, loaders)[i].result.model == Run(slot, loaders)[j].result.model
    decreases |loaders|
  {
    if |loaders| > 0 {
      var steps := Run(slot, loaders);
      var s := Load(slot, loaders[0]);
      var rest := Run(s.slot, loaders[1..]);
      assert steps == [s] + rest;
      match s.slot
      case Some(m) =>
        NoInitialisationWhenHeld(m, loaders[1..]);
        HeldModelIsReused(m, loaders[1..]);
        forall i, j | 0 <= i < j < |loaders| && steps[i].result.Loaded? && steps[j].result.Loaded?
          ensures steps[i].result.model == steps[j].result.model
        {
          assert steps[j] == rest[j - 1];
          if i > 0 { assert steps[i] == rest[i - 1]; }
        }
      case None =>
        LoadsAtMostOnce(None, loaders[1..]);
        forall i, j | 0 <= i < j < |loaders| && steps[i].result.Loaded? && steps[j].result.Loaded?
          ensures steps[i].result.model == steps[j].result.model
        {
          assert i > 0;
          assert steps[i] == rest[i - 1] && steps[j] == rest[j - 1];
        }
    }
  }
}
