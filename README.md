# DeepVecFont-style training loop and TTF-to-SFD converter in Dafny

This project models two parts of a font-generation repository:

- **The training script `train.py`.** It covers the step counter, the cadences of logging, sampling, validation and checkpointing, the objective the optimizer minimises, and the validation averaging. It also covers the learning-rate decay once per epoch, resuming from a checkpoint, dispatch on the model name, and the experiment-name suffix. The loop is a `Trainer` class. Its fields are what the script changes as it runs: the parameters, the optimizer state, the train/eval flag, the scheduler count, the log, sample and validation records, and the checkpoint directory. Each method is proved against specification predicates over snapshots of that state. The network, the AdamW step and `torch.load`/`torch.save` are oracles.
- **The converter `data_utils/convert_ttf_to_sfd.py`.** It covers the charset, the width of character ids, the font id, the `uni` glyph names, the output paths and the five-line description record. It also covers the split of the font list among worker processes, and the per-font, per-character loop that writes files. FontForge is an oracle. The files written are a map from path to content held by a `Disk` object.

Modules:

- `Wrappers`: Option and Result.
- `Decimal`: `str(n)` and the `{num:0{width}}` format.
- `Text`: `str.split` and `posixpath.join`.
- `Schedule`: step numbers, cadences and checkpoint names.
- `Losses`: the objective, the display terms and validation averaging.
- `Training`: the `Trainer` class and its run specification.
- `Launch`: `train` and `main`.
- `FontNames`: names computed by the converter.
- `FontConvert`: the converter's loops.

Three behaviours of the code that a reader might not expect are modelled as written:

- train.py:166 computes `epoch % opts.freq_ckpt`, so a `freq_ckpt` of 0 raises `ZeroDivisionError`; it does not switch checkpoints off. The model requires a non-zero value.
- train.py:124 calls `model_main.eval()` and nothing calls `train()` again. After the first validation every later batch is trained with the module in eval mode, and `Trainer.training` stays `false`.
- train.py:125-133 accumulate only the `img` and `svg` groups. The `svg_para` accumulator stays at zero, and the validation `svg` group has no `smt` entry.

## Model

| member | source | states |
|---|---|---|
| Schedule.StepSuccessor | train.py:60-73 | `batches_done` is at least 1 and goes up by exactly one from each batch to the next, across epoch boundaries too |
| Schedule.StepPosition | train.py:73 | the step number determines its epoch and batch index: `(step-1) / n == epoch` and `(step-1) % n == idx` |
| Schedule.DueStepsMembers | train.py:88-121 | a step of a stretch is in the trace of an action iff its cadence selects it (log: `% freq_log == 0`; sample/val also need `freq > 0`) |
| Schedule.DueStepsIncreasing | train.py:88-121 | the steps at which an action fires are strictly increasing |
| Schedule.DueStepsSplit | train.py:60-62 | the trace of a stretch is the trace of its first part followed by that of its second |
| Schedule.DisabledNeverFires | train.py:115-121 | a sample or validation cadence of 0 or less never fires |
| Schedule.LogEveryStep | train.py:88 | with `freq_log == 1` every step is logged |
| Schedule.ResumedRunFirstStep | train.py:60-73 | whatever the cadences, the first batch of a run started or resumed at `init_epoch` takes step `init_epoch * n + 1`, and no batch of the run takes a lower step |
| Schedule.StepsBeforeProduct | train.py:73 | the steps of the epochs before `epoch` number `epoch * n` |
| Schedule.StepsBeforeMonotone | train.py:73 | later epochs start at later steps |
| Schedule.ThreeBatchesExample | train.py:62-121 | three batches of epoch 0 log steps 1, 2, 3 and with `freq_val == 0` never validate |
| Schedule.LogCount | train.py:88 | the first `t` steps write exactly `t / freq_log` log lines |
| Schedule.DueEpochsMembers | train.py:166 | an epoch is checkpointed iff `epoch % freq_ckpt == 0` and `epoch >= threshold_ckpt` |
| Schedule.CheckpointExample | train.py:166 | `freq_ckpt = 3`, `threshold_ckpt = 5` checkpoint epochs 6, 9, 12 of 0..12 |
| Schedule.CheckpointFileInjective | train.py:169-172 | the name `{epoch}_{batches_done}.ckpt` determines both numbers, so no two (epoch, step) pairs share a file |
| Schedule.DigitsThenSeparator | train.py:172 | a decimal number followed by `_` is recovered unambiguously from the front of the name |
| Losses.ReportSplitsObjective | train.py:66-84 | the logged loss is the objective; the logged image terms are its weighted l1 and perceptual parts and the svg total is its svg term |
| Losses.ObjectiveIgnoresSubTerms | train.py:66-84 | the objective depends on the svg and svg_para groups only through their totals; `cmd`/`args`/`smt`/`aux` are display only |
| Losses.ObjectiveExample | train.py:66-67 | a concrete objective: weights 1, 0.5, 0.1 over l1 2, vggpt 1, kl 0.5, totals 3 and 1.5 give 7.05 |
| Losses.SvgParaStaysZero | train.py:125-133 | the `svg_para` accumulator is never added to |
| Losses.SumOfAppend | train.py:128-133 | accumulating two runs of batches is the sum of accumulating each |
| Losses.SumOfSwap | train.py:128-133 | the accumulated sum does not depend on the order of the validation batches |
| Losses.SumOfConstant | train.py:128-133 | accumulating `k` identical batches gives `k` copies of each term |
| Losses.CopiesAverage | train.py:135-137 | `k` copies of a value divided by `k` is the value |
| Losses.DivideRepeated | train.py:135-137 | dividing `k` copies of one batch's terms by `k` gives back its `img` terms and its `svg` total, cmd, args and aux |
| Losses.MeanOfConstant | train.py:125-137 | averaging identical batches gives back their `img` and `svg` terms |
| Losses.MeanExample | train.py:125-137 | the mean of l1 values 1, 2, 3 is 2 |
| Training.ValidationLosses | train.py:125-137 | the `+=` loop and the `/=` loop compute the mean of the per-batch losses in eval mode; an empty loader is the division by zero |
| Training.InEpochKeepsRate | train.py:62-72 | the batches of an epoch never change the learning rate |
| Training.EpochStartRate | train.py:57-164 | an epoch `e` of a run entered at learning rate `lr` in epoch `init` runs at `lr * 0.997^(e - init)` |
| Training.InEpochMode | train.py:121-124 | through an epoch's batches the module stays in train mode exactly as long as no validation has fallen due |
| Training.BatchStepTraces | train.py:73-121 | a batch that did not fail adds its log line, sample and validation record exactly when each is due, and leaves train mode exactly when validation was due |
| Training.BatchStepLogSteps | train.py:88-89 | one batch adds its step to the log exactly when `batches_done % freq_log == 0` |
| Training.BatchStepSampleSteps | train.py:115-119 | one batch adds a sample exactly when `freq_sample > 0` and `batches_done % freq_sample == 0` |
| Training.BatchStepValSteps | train.py:121-160 | a batch that did not fail adds a validation record exactly when `freq_val > 0` and `batches_done % freq_val == 0` |
| Training.BatchDoneTraces | train.py:62-121 | the steps of the first `idx - 1` batches followed by batch `idx - 1`, when it did not fail, are the steps of the first `idx` batches |
| Training.BatchFailed | train.py:121-137 | a batch fails only at a due validation with an empty validation loader |
| Training.BatchesNoneFailed | train.py:121-137 | an epoch whose batches all ran met no due validation with an empty loader |
| Training.BatchesRunFails | train.py:62-137 | the batch loop stops with an error only at a due validation with an empty loader |
| Training.BatchesRunTraces | train.py:62-121 | when the first `idx` batches all ran, they took steps `epoch*n+1 .. epoch*n+idx` in order, with every action at its due steps |
| Training.BatchesRunDone | train.py:121-137 | when the first `idx` batches all ran and the validation loader is empty, no validation fell due among their steps |
| Training.BatchesRunRecords | train.py:62-160 | when the first `idx` batches all ran, every record they added fits its batch, the trainer is at the point the oracle reaches after them, and neither the scheduler nor the checkpoints moved |
| Training.BatchesRunSoFar | train.py:62-160 | the first `idx` batches fail only at a due validation with an empty loader, and otherwise they are the epoch's batches so far |
| Training.BatchesRunOutcome | train.py:62-160 | the whole batch loop fails exactly when a validation falls due with an empty loader, and otherwise runs every batch of the epoch |
| Training.BatchRecords | train.py:74-160 | the records one batch adds continue the epoch's records |
| Training.BatchLogsFit | train.py:74-89 | a batch's log line shows its epoch, `n_epochs`, index, loader length, step, the learning rate it ran at and the report of its forward call |
| Training.BatchSamplesFit | train.py:115-119 | a batch's sample is named after its epoch and a step of that epoch |
| Training.BatchValsFit | train.py:121-160 | a batch's validation record holds the mean losses under the parameters that batch's optimizer step produced |
| Training.LogsFitEpochConcat | train.py:62-89 | the log lines of two consecutive stretches of one epoch fit that epoch |
| Training.SamplesFitEpochConcat | train.py:62-119 | the samples of two consecutive stretches of one epoch fit that epoch |
| Training.ValsFitEpochConcat | train.py:62-160 | the validation records of two consecutive stretches of one epoch fit that epoch |
| Training.LogsFitExtend | train.py:60-89 | the log lines of epochs `[init, e)` followed by those of epoch `e` are the log lines of `[init, e+1)` |
| Training.SamplesFitExtend | train.py:60-119 | the samples of epochs `[init, e)` followed by those of epoch `e` are the samples of `[init, e+1)` |
| Training.ValsFitExtend | train.py:60-160 | the validation records of epochs `[init, e)` followed by those of epoch `e` are those of `[init, e+1)` |
| Training.TracesConcat | train.py:60-62 | two consecutive stretches of steps make one stretch, traces and train flag included |
| Training.OneStepTraces | train.py:73-121 | one batch's records are the stretch `[step, step+1)` |
| Training.EpochComplete | train.py:62-172 | all batches of an epoch, then the scheduler step and the checkpoint of the point reached, make one epoch |
| Training.EpochTracesExtend | train.py:60-62 | the steps of epochs `[init, e)` followed by those of epoch `e` are the steps of `[init, e+1)` |
| Training.EpochStartNext | train.py:60-164 | ending epoch `e` from its start point reaches the start point of epoch `e+1` |
| Training.RanExtend | train.py:60-172 | a run of epochs `[init, e)` followed by epoch `e` is a run of `[init, e+1)`: steps joined, records kept, the point advanced, decays counted, checkpoints kept |
| Training.RanExtendRecords | train.py:60-160 | the records of a run of `[init, e)` and of epoch `e` are the records of `[init, e+1)` |
| Training.RanExtendCheckpoints | train.py:164-172 | the checkpoints of a run of `[init, e)` and the one epoch `e` writes are the checkpoints of `[init, e+1)` |
| Training.NoneFailedExtend | train.py:60-172 | an epoch that does not fail keeps the run free of failures |
| Training.RanSoFarExtend | train.py:60-172 | an epoch that did not fail extends the run by one epoch |
| Training.RanSoFarStart | train.py:60 | before the first epoch the run is empty |
| Training.RanSoFarComplete | train.py:60 | a loop through the whole `range(init_epoch, n_epochs)` ran every epoch and did not fail |
| Training.EpochFailureFailsRun | train.py:121-172 | a failing epoch in the range makes the run fail |
| Training.CheckpointsSameStore | train.py:163-172 | the checkpoints of a run depend on the checkpoint directory alone |
| Training.FailedAtStop | train.py:60-172 | an epoch that fails after the loop ran up to it, leaving the directory as it was, is the epoch the run failed at, with the earlier due checkpoints on disk |
| Training.RanRates | train.py:57-172 | with learning rate `lr` at the start of epoch `init`, every log line of epoch `e` shows `lr * 0.997^(e - init)`, the checkpoint of a due epoch `e` holds `lr * 0.997^(e + 1 - init)`, and the run ends at `lr * 0.997^(stop - init)` |
| Training.LogLineRate | train.py:85-89 | a log line of epoch `e` shows the rate the run entered with, decayed once per epoch before `e` |
| Training.CheckpointsExtend | train.py:164-172 | a new epoch's checkpoint adds one file, never overwrites an earlier epoch's, which keeps its full payload, and leaves every other file as it was |
| Training.LaterCheckpointIsNew | train.py:169-172 | a later epoch's checkpoint name is none of the earlier ones |
| Training.CheckpointsDiffer | train.py:172 | two epochs never share a checkpoint file |
| Training.AllSavedMembers | train.py:169-172 | every due epoch's checkpoint is stored holding the model and optimizer state at the end of that epoch, with `n_epoch` and `n_iter` equal to the epoch and its last step |
| Training.AllSavedUpdate | train.py:169-172 | writing a file that is none of the saved epochs' checkpoints keeps them all |
| Training.SavedSnoc | train.py:169-172 | saving one more epoch under a new name keeps all earlier ones saved |
| Training.Trainer.constructor | train.py:39-46 | a new model in train mode, an AdamW state with the given learning rate, no records, the existing checkpoint directory |
| Training.Trainer.LoadCheckpoint | train.py:52-55 | loading restores the model and the optimizer exactly as saved, including the learning rate; a missing path changes nothing |
| Training.Trainer.RunValidation | train.py:121-161 | eval mode is entered and kept; one validation record with the mean losses of the current parameters; nothing else changes |
| Training.Trainer.Optimize | train.py:62-72 | forward in the current mode, then the oracle step minimising the objective of train.py:66-67 (`ObjectiveOf` of the options' weights); the learning rate is untouched within an epoch |
| Training.Trainer.Record | train.py:73-119 | a log line exactly at the `freq_log` steps and a sample exactly at the `freq_sample` steps |
| Training.Trainer.ValidateIfDue | train.py:121-161 | validation exactly at the `freq_val` steps; the train flag drops iff it ran; failure iff due with an empty loader |
| Training.Trainer.TrainStep | train.py:62-161 | the whole new state after one batch is `BatchStep` of the old: parameters and moments from the oracle, the lr kept, the log line, sample and validation record when due, the train flag, the failure on an empty validation loader |
| Training.Trainer.EndEpoch | train.py:164-172 | one scheduler step (`lr * 0.997`), then the checkpoint `{epoch}_{batches_done}.ckpt` holding the model, optimizer, epoch and step if due; failure iff due with `batches_done` never set |
| Training.Trainer.RunBatches | train.py:62-161 | when the batch loop finishes, the state is the fold `BatchesRun` of the batches over the old state; it fails only when a validation is due with an empty loader, and a failure leaves the checkpoint directory unchanged; `batches_done` ends at `(epoch+1)*n` |
| Training.Trainer.RunEpoch | train.py:60-172 | one epoch: its steps, its records, the point after its batches and one decay, and its checkpoint holding that point; it fails exactly on an empty validation loader at a due validation or a due checkpoint with no batch run, and a failure leaves the checkpoint directory unchanged |
| Training.Trainer.NextEpoch | train.py:60 | one epoch of the range extends the run, or the run fails at this epoch (`FailedAt`: the earlier epochs did not fail, this one does, and the directory holds the earlier due checkpoints) |
| Training.Trainer.RunEpochs | train.py:60-172 | the run fails iff some due validation meets an empty loader or some due checkpoint has no step yet; on failure `FailedAt`: the failing epoch is the first whose validation or checkpoint fails, and the directory holds exactly the checkpoints of the due epochs before it, every other file unchanged; otherwise `Ran`: every step of `[init_epoch, n_epochs)` in order with each action at its due steps, every record fitting its batch (epoch, index, lr, losses), the parameters and moments the oracle reaches, one decay per epoch, each due checkpoint holding the state at the end of its epoch and every other file unchanged |
| Training.Trainer.TrainMainModel | train.py:52-172 | a missing resume checkpoint fails before any change; otherwise, from `ResumeStart` (the loaded parameters, moments and learning rate) over the options' epoch range, the run fails iff `RunFails`, a finished run satisfies `Ran`, and a failed one `FailedAt` with the checkpoints of the due epochs before the failing one on disk |
| Launch.Dispatch | train.py:190-196 | success iff `main_model`; `others` calls the undefined `train_others`; anything else is `NotImplementedError` |
| Launch.DispatchCases | train.py:190-196 | every model name takes exactly one of the three branches |
| Launch.ExperimentName | train.py:201 | the name is the old name, `_`, then the model name |
| Launch.ExperimentNameInjective | train.py:201 | for one model name, the suffixed names are equal iff the original names are |
| Launch.ExperimentDirsDiffer | train.py:201-205 | two model names never share an experiment directory |
| Launch.Train | train.py:190-196 | the trainer runs only for `main_model`, with the outcome and new state of `TrainMainModel` (missing resume checkpoint, `RunFails`, `Ran`, `FailedAt`); the other branches fail with the dispatch error and nothing changed, whatever the cadences |
| Decimal.ToDecimal | data_utils/convert_ttf_to_sfd.py:17 | `str(n)` is a non-empty digit string without a leading zero |
| Decimal.ParseToDecimal | data_utils/convert_ttf_to_sfd.py:17 | `str(n)` reads back as `n` |
| Decimal.DigitCount | data_utils/convert_ttf_to_sfd.py:17 | `n < 10^len(str(n))` and, from 10 on, `10^(len-1) <= n` |
| Decimal.PadRoundTrip | data_utils/convert_ttf_to_sfd.py:52-74 | `{num:0{width}}` is all digits, reads back as the number and is `max(width, digits)` long |
| Decimal.PadInjective | data_utils/convert_ttf_to_sfd.py:52-74 | two numbers padded to one width are equal iff the numbers are |
| Decimal.PadFixedWidth | data_utils/convert_ttf_to_sfd.py:17-52 | every id below a bound, padded to the width of `str(bound)`, is exactly that wide |
| Text.IndexOf | data_utils/convert_ttf_to_sfd.py:34 | the first occurrence of the separator |
| Text.SplitCons | data_utils/convert_ttf_to_sfd.py:34 | a piece without separator, a separator, and the rest split into that piece and the rest's pieces |
| Text.JoinInjective | data_utils/convert_ttf_to_sfd.py:46-52 | joining one directory with two relative names gives equal paths iff the names are equal |
| FontNames.CharsetLayout | data_utils/convert_ttf_to_sfd.py:12-16 | the Thai set first at its own indices, the English set after it only when `ref_nshot == 52` |
| FontNames.CharIdWidth | data_utils/convert_ttf_to_sfd.py:17 | `charset_lenw` is at least 1 |
| FontNames.CharIdNames | data_utils/convert_ttf_to_sfd.py:17-74 | every character id is padded to exactly `charset_lenw` digits, reads back, and distinct ids give distinct text |
| FontNames.CharIdWidthBounds | data_utils/convert_ttf_to_sfd.py:17 | `charset_lenw` is the smallest width that fits the charset's length |
| FontNames.FontIdPrefix | data_utils/convert_ttf_to_sfd.py:34 | `font_id` has no dot, is a prefix of the file name and is followed by a dot or nothing |
| FontNames.FontIdExample | data_utils/convert_ttf_to_sfd.py:34 | `Sarabun.ttf` has id `Sarabun` |
| FontNames.FontIdWithoutDot | data_utils/convert_ttf_to_sfd.py:34 | any name without a dot is its own id |
| FontNames.FontIdIdempotent | data_utils/convert_ttf_to_sfd.py:34 | the id of a font id is that id |
| FontNames.HexRoundTrip | data_utils/convert_ttf_to_sfd.py:54 | `k` hex digits of a number below `16^k` read back as it |
| FontNames.EscapeTail | data_utils/convert_ttf_to_sfd.py:54 | what `unicode_escape` leaves after two bytes is lowercase hex |
| FontNames.ThaiGlyphName | data_utils/convert_ttf_to_sfd.py:53-54 | a Thai-set character of U+0100..U+FFFF is selected by `uni` and 4 hex digits of its code point; distinct characters get distinct names |
| FontNames.KoKaiGlyphName | data_utils/convert_ttf_to_sfd.py:53-54 | U+0E01 is selected by `uni0e01` |
| FontNames.EscapelessGlyphName | data_utils/convert_ttf_to_sfd.py:53-54 | printable ASCII and tab/newline/CR in the Thai set all collapse to `uni`; other characters are selected by themselves |
| FontNames.OutputNameInjective | data_utils/convert_ttf_to_sfd.py:52-69 | within one font, file names are equal iff the character ids and the extensions are |
| FontNames.OutputNameRelative | data_utils/convert_ttf_to_sfd.py:46-69 | the output name never starts with `/`, so the join appends it to the target directory |
| FontNames.NumberHasNoNewline | data_utils/convert_ttf_to_sfd.py:71-73 | `str` of an integer holds no newline |
| FontNames.SplitLines | data_utils/convert_ttf_to_sfd.py:71-75 | five newline-free lines joined by newlines split back into them |
| FontNames.DescriptionFields | data_utils/convert_ttf_to_sfd.py:63-75 | the record's five lines are `65` (the code point of `A`, whatever the character), width, vwidth, padded id and font id |
| FontConvert.OutPathsDistinct | data_utils/convert_ttf_to_sfd.py:46-69 | within one font, every character's `.txt` and `.sfd` paths are pairwise different |
| FontConvert.OutPathShape | data_utils/convert_ttf_to_sfd.py:46-69 | an output path is the split directory, the font id and a `/` (for a non-empty id), then the file name |
| FontConvert.SharedIdCollides | data_utils/convert_ttf_to_sfd.py:34-69 | `Kanit.Bold.ttf` and `Kanit.Regular.ttf` both have font id `Kanit` and write every output path in common |
| FontConvert.FontsApart | data_utils/convert_ttf_to_sfd.py:34-69 | font files with different font ids never write to the same path |
| FontConvert.CharStepFrame | data_utils/convert_ttf_to_sfd.py:50-80 | a character's pass writes only its own two files |
| FontConvert.CharStepAt | data_utils/convert_ttf_to_sfd.py:51-80 | after a character's pass its description holds the record, or is empty when the copy fails; its SFD is written when the copy succeeded, and otherwise left as it was |
| FontConvert.CharsUpToAt | data_utils/convert_ttf_to_sfd.py:50-80 | after the character loop every character's files hold what its own pass wrote; later passes never overwrite them |
| FontConvert.OwnPassWritten | data_utils/convert_ttf_to_sfd.py:50-80 | right after a character's own pass its files hold what that pass wrote |
| FontConvert.LaterPassKeepsWritten | data_utils/convert_ttf_to_sfd.py:50-80 | one more character's pass keeps what an earlier character's pass wrote |
| FontConvert.LaterPassKeeps | data_utils/convert_ttf_to_sfd.py:50-80 | a later character's pass keeps an earlier character's files |
| FontConvert.CharsUpToFrame | data_utils/convert_ttf_to_sfd.py:50-80 | paths that are none of the characters' outputs are left alone |
| FontConvert.FontsOverAppend | data_utils/convert_ttf_to_sfd.py:84-89 | converting two lists of fonts one after the other is converting their concatenation |
| FontConvert.FontsPerProcess | data_utils/convert_ttf_to_sfd.py:27 | `font_num // process_num + 1` is at least 1 and `process_num` shares of it exceed `font_num` |
| FontConvert.ShareMembers | data_utils/convert_ttf_to_sfd.py:29-32 | process `p` converts index `i` iff `p*per <= i < (p+1)*per` and `i < font_num` |
| FontConvert.ShareBelow | data_utils/convert_ttf_to_sfd.py:31-32 | a process converts only indices of the font list |
| FontConvert.ShareSize | data_utils/convert_ttf_to_sfd.py:30 | a process holds at most `per` indices |
| FontConvert.SharesDisjoint | data_utils/convert_ttf_to_sfd.py:29-32 | no index belongs to two processes |
| FontConvert.SharesPrefix | data_utils/convert_ttf_to_sfd.py:29-84 | the first `k` processes together cover the indices below `min(k*per, font_num)` in order |
| FontConvert.SharesCover | data_utils/convert_ttf_to_sfd.py:25-84 | all processes together convert every font exactly once |
| FontConvert.PartitionExample | data_utils/convert_ttf_to_sfd.py:27-32 | nine fonts on four processes: three each for three processes, none for the last |
| FontConvert.Disk.constructor | data_utils/convert_ttf_to_sfd.py:18-19 | the disk starts with the given files |
| FontConvert.ConvertFont | data_utils/convert_ttf_to_sfd.py:34-82 | an unopenable font changes nothing; otherwise each character's pass in order |
| FontConvert.Process | data_utils/convert_ttf_to_sfd.py:29-82 | the process visits exactly its share, in order, converting each font |
| FontConvert.RunProcesses | data_utils/convert_ttf_to_sfd.py:84-89 | the processes together convert fonts `0 .. font_num-1` in order |
| FontConvert.ConvertMp | data_utils/convert_ttf_to_sfd.py:9-89 | no walk leaves the font list unbound; one CPU divides by zero; otherwise every font of the last listing is converted once |

## Left out

- Neural network, loss computation and AdamW: `forward` and `step` are oracle function fields of `Network`. Gradients, `zero_grad` and `backward` are inside `step`, which receives the objective as a function of the `loss_dict`.
- Real numbers are exact reals; `float` rounding is not modelled.
- Printing, the message and `val_msg` formatting, timing, `tqdm` and all of `wandb`: these are output only. The log records hold the numbers a message shows, not its text.
- File I/O: the checkpoint directory is a map from file name to payload, and the converter's disk is a map from path to file. Sample images are records of `(epoch, step)`. The resume path `continue_ckpt` is looked up as a key of that same map, which the run writes under the bare names `{epoch}_{step}.ckpt` (`CheckpointFile`); loading an arbitrary path elsewhere on disk is not modelled. Directory creation, `backup_code` and file closing are left out.
- Data loaders: every epoch goes through the same sequence of training batches in the same order; shuffling inside `get_loader` is not modelled.
- Seeding, CUDA, `DataParallel` and `multi_gpu`: the two save branches write the same payload, so they are one branch.
- `torch.no_grad` is not modelled: the oracle's result does not depend on it.
- FontForge is the oracle `FontForge`: opening, the copy/paste/save as one `copies` outcome, and the glyph width and vertical width. The kind of exception raised is left out.
- FontConvert.CharStep: the width and vertical width of the pasted glyph are total. In the source the SFD is saved (line 69) and `65` is written (line 71) before `new_font_for_char['A'].width` is read (line 72). If that lookup raised, the font would keep its SFD and a description holding only its first line or two. The model has only the complete outcome and the empty one.
- `multiprocessing`: the processes run one after the other. Their index shares are disjoint, and fonts with different font ids write disjoint paths (`FontsApart`). Font files whose names agree up to the first `.` share every output path (`SharedIdCollides`). When two such fonts fall to different processes, both write the same files at the same time, and the sequential result the model computes is only one of the possible outcomes.
- `cpu_count()` is a parameter, and `ConvertMp` requires `cpuCount >= 1`, which the platform guarantees.
- Command-line parsing: `--ref_nshot` is read but never declared by the converter's parser, so it is a field of `Options`. Reading the charset files is left out: `th` and `eng` are parameters.
- `Schedule.LogDue` and the Training methods: they require `freq_log != 0` and `freq_ckpt != 0`, because the source then raises `ZeroDivisionError`. The model does not carry that exception. `Launch.Train` requires them only for `main_model`, the one branch that runs the loop.
- `Training.Trainer.TrainMainModel`: it does not state the loaded checkpoint's `n_epoch`/`n_iter`, because the source ignores them.
