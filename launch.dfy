/** The entry point of the training script: the experiment name is suffixed
    with the model name, and the model name picks the trainer. */
module Launch {
  import opened Wrappers
  import opened Text
  import opened Training

  /** The trainers `train` can start. */
  datatype Entry = MainModel

  datatype LaunchError =
    | NameError(name: string)   // the branch calls a function the script never defines
    | NotImplementedError       // no branch matches the model name

  /** The function the `'others'` branch calls; nothing defines it. */
  const OthersTrainer: string := "train_others"

  /** The branch `train` takes for a model name. */
  function Dispatch(modelName: string): (r: Result<Entry, LaunchError>)
    ensures r.Success? <==> modelName == "main_model"
    ensures r.Failure? && r.error.NameError? <==> modelName == "others"
    ensures r.Failure? && r.error.NameError? ==> r.error.name == OthersTrainer
  {
    if modelName == "main_model" then Success(MainModel)
    else if modelName == "others" then Failure(NameError(OthersTrainer))
    else Failure(NotImplementedError)
  }

  /** Every model name lands in exactly one of the three branches. */
  lemma DispatchCases(modelName: string)
    ensures || Dispatch(modelName) == Success(MainModel)
            || Dispatch(modelName) == Failure(NameError(OthersTrainer))
            || Dispatch(modelName) == Failure(NotImplementedError)
    ensures Dispatch(modelName) == Failure(NotImplementedError) <==>
      modelName != "main_model" && modelName != "others"
  {
  }

  /** The experiment name after `main` suffixes it with the model name. */
  function ExperimentName(nameExp: string, modelName: string): (r: string)
    ensures |r| == |nameExp| + 1 + |modelName|
    ensures r[..|nameExp|] == nameExp && r[|nameExp|] == '_' && r[|nameExp| + 1..] == modelName
  {
    nameExp + "_" + modelName
  }

  /** For one model name, different experiment names stay different, and
      the model name is recovered from the end of the suffixed name. */
  lemma ExperimentNameInjective(a: string, b: string, modelName: string)
    ensures ExperimentName(a, modelName) == ExperimentName(b, modelName) <==> a == b
  {
    if ExperimentName(a, modelName) == ExperimentName(b, modelName) {
      assert |a| == |b|;
      assert a == ExperimentName(a, modelName)[..|a|];
    }
  }

  /** The experiment directory `<exp_path>/experiments/<name>` under
      `os.path.join`. */
  function ExperimentDir(expPath: string, name: string): string {
    Join(Join(expPath, "experiments"), name)
  }

  /** Two model names never share an experiment directory: the suffix keeps
      the runs of different models apart. An absolute experiment name
      replaces the base directory in the join, and then it is the directory
      itself. */
  lemma ExperimentDirsDiffer(expPath: string, nameExp: string, m1: string, m2: string)
    requires m1 != m2
    ensures ExperimentDir(expPath, ExperimentName(nameExp, m1)) != ExperimentDir(expPath, ExperimentName(nameExp, m2))
  {
    var x, y := ExperimentName(nameExp, m1), ExperimentName(nameExp, m2);
    var base := Join(expPath, "experiments");
    assert x != y by {
      assert x[|nameExp| + 1..] == m1 && y[|nameExp| + 1..] == m2;
    }
    assert x[0] == y[0] by {
      if |nameExp| == 0 {
        assert x[0] == '_' && y[0] == '_';
      } else {
        assert x[0] == nameExp[0] && y[0] == nameExp[0];
      }
    }
    if x[0] == '/' {
      assert Join(base, x) == x && Join(base, y) == y;
    } else {
      JoinInjective(base, x, y);
    }
  }

  /** `train(opts)`: the main trainer runs only for `'main_model'`, with
      the outcome and the new state `train_main_model` promises; the other
      two branches fail before anything of the trainer changes. */
  method Train(trainer: Trainer, modelName: string, cfg: Config, net: Network,
               trainBatches: seq<Batch>, valBatches: seq<Batch>, resume: Option<string>)
    returns (r: Result<Outcome, LaunchError>, ghost failedAt: nat)
    requires Dispatch(modelName).Success? ==> cfg.cad.freqLog != 0 && cfg.cad.freqCkpt != 0
    modifies trainer
    ensures r.Failure? <==> Dispatch(modelName).Failure?
    ensures r.Failure? ==> r.error == Dispatch(modelName).error && trainer.Snap() == old(trainer.Snap())
    ensures r.Success? && resume.Some? && resume.value !in old(trainer.store) ==>
      r.value == Failed(CheckpointMissing(resume.value)) && trainer.Snap() == old(trainer.Snap())
    ensures r.Success? && (resume.None? || resume.value in old(trainer.store)) ==>
      var loop, s0 := Loop(net, cfg, trainBatches, valBatches), ResumeStart(old(trainer.Snap()), resume);
      && (r.value.Failed? <==> RunFails(cfg, |trainBatches|, |valBatches|))
      && (r.value.Done? ==> Ran(loop, cfg.initEpoch, StopEpoch(cfg), s0, trainer.Snap()))
      && (r.value.Failed? ==> FailedAt(loop, failedAt, s0, trainer.Snap()))
  {
    failedAt := 0;
    var entry := Dispatch(modelName);
    if entry.Failure? {
      return Failure(entry.error), failedAt;
    }
    var outcome;
    outcome, failedAt := trainer.TrainMainModel(cfg, net, trainBatches, valBatches, resume);
    r := Success(outcome);
  }
}
