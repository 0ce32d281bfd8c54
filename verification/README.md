# ROOT: parallel executor, short variable importance and version codes

A Dafny model of three small pieces of ROOT and the properties proved about them.

- **`TMVA::ParallelExecutor`** (`ParallelExecutor.dfy`) runs jobs for one of two callers.
  - For a `Factory`, each job is one method booked on the factory, and it returns an `OptionMap` record with the dataset, the method name and the ROC integral.
  - For a `CrossValidation`, job k evaluates fold k and returns that fold's ROC value.
  - Modelled:
    - flattening the methods map into the `(dataset, position)` job list;
    - the per-job lambdas;
    - the branch on the analysis type;
    - the worker count, the stopwatch and the logger name;
    - the process-wide silent flag and `MsgLogger` output switch left behind on return;
    - the `ParallelExecutorResults` record.
  - The worker pool's `Map` is an order-preserving loop over `0 .. n-1`.
- **`TMVA::VariableImportance`** (`VariableImportance.dfy`, on top of `Bits.dfy`) runs the short variable-importance search.
  - `Sum(nbits)` builds the seed mask with every variable's bit set.
  - The classifier is trained once on the seed.
  - For each set bit i, the classifier is trained on the sub-seed with that bit cleared, and the ROC drop is charged to slot `log2(x - y) = i`.
  - With a single variable, the slot gets `SROC - 0.5` and no sub-seed is trained.
  - With no variables, the model stops the search with the error "need at least one variable". The source's `kFATAL` message at that point has no `Endl`, so as written the source does not stop there. The model stops, as the fatal message evidently intends (see "## Left out").
  - The classifier is a class that records every training: the data loader name (the bitset text of the mask) and the variables it holds. ROC integrals come from an uninterpreted function of those two.
- **`base/inc/RVersion.h`** (`RVersion.dfy`): the release constants and `ROOT_VERSION(a,b,c) = (a << 16) + (b << 8) + c`.
  - Lemmas prove the decode/encode round trips, injectivity and order preservation (the documented `#if ROOT_VERSION_CODE >= ROOT_VERSION(...)` idiom).
  - They also prove that `ROOT_VERSION_CODE` is the version written in `ROOT_RELEASE`.

`Wrappers.dfy` holds the `Option` and `Result` datatypes.

Behaviours of the code that the model keeps as written:
- There is no check that rejects a worker count below one. `jobs` is passed to the pool and into the result unchanged.
- The factory path never inhibits logger output before its jobs run. Afterwards it enables output (line 37) and never inhibits it again. So both paths leave output enabled and the silent flag set.
- The factory path only logs its results table; `ExecuteFactory` returns it as `table`.
- A non-classification factory neither resets nor starts the stopwatch. It returns `fTimer.RealTime()`, which first stops the stopwatch if it is still running (a `TStopwatch` runs from its construction), and then reads it. So the reading is the time accumulated since construction or the last reset, not the time of any job.

## Model

| member | source | states |
|---|---|---|
| ParallelExecutor.BuildJobList | tmva/tmva/src/ParallelExecutor.cxx:11-16 | the nested push_back loops produce exactly the flattened job list of the methods map |
| ParallelExecutor.FlattenLength | tmva/tmva/src/ParallelExecutor.cxx:11-16 | the job list has one entry per booked method (the sum of the method vectors' sizes) |
| ParallelExecutor.FlattenAt | tmva/tmva/src/ParallelExecutor.cxx:12-15 | dataset j's jobs are `(dataset_j, 0 .. size_j-1)`, ascending, right after the jobs of the datasets before j in map order |
| ParallelExecutor.TotalSizeMonotone | tmva/tmva/src/ParallelExecutor.cxx:12-15 | the jobs of a prefix of the map are never more than all jobs |
| ParallelExecutor.FlattenMembers | tmva/tmva/src/ParallelExecutor.cxx:14-15 | a pair is in the job list if and only if its dataset is in the map and its position is below that dataset's vector size |
| ParallelExecutor.FlattenDistinct | tmva/tmva/src/ParallelExecutor.cxx:11-16 | with the map's distinct keys, no `(dataset, position)` pair occurs twice in the job list |
| ParallelExecutor.FindDataset | tmva/tmva/src/ParallelExecutor.cxx:25 | the lookup `GetMethodName` does by dataset name returns an entry with that name, or none when no entry has it |
| ParallelExecutor.FindDistinct | tmva/tmva/src/ParallelExecutor.cxx:25 | with distinct keys, looking up dataset j's name finds entry j |
| ParallelExecutor.FlattenJobsValid | tmva/tmva/src/ParallelExecutor.cxx:21-29 | every job of the list names a booked method, so every name lookup in the job lambda succeeds |
| ParallelExecutor.Factory.TrainMethod | tmva/tmva/src/ParallelExecutor.cxx:26 | training a job's method appends one `Trained` call for that job to the factory's call trace, and nothing else changes |
| ParallelExecutor.Factory.TestMethod | tmva/tmva/src/ParallelExecutor.cxx:27 | testing a job's method appends one `Tested` call for that job to the call trace, and nothing else changes |
| ParallelExecutor.Factory.EvaluateMethod | tmva/tmva/src/ParallelExecutor.cxx:28 | evaluating a job's method appends one `Evaluated` call for that job to the call trace, and nothing else changes |
| ParallelExecutor.Factory.GetROCIntegral | tmva/tmva/src/ParallelExecutor.cxx:29 | records the ROC read and returns the ROC integral of that dataset and method |
| ParallelExecutor.RunFactoryJob | tmva/tmva/src/ParallelExecutor.cxx:21-31 | job k returns the record of `methods[k]`, and calls Train, Test and Evaluate on `methods[k]` in that order, then reads the ROC integral of that method's name; this value replaces the initial `rocint` 0 |
| ParallelExecutor.AllJobCallsStep | tmva/tmva/src/ParallelExecutor.cxx:35 | running job k after jobs 0..k-1 appends job k's calls to theirs |
| ParallelExecutor.ClassificationResultsStep | tmva/tmva/src/ParallelExecutor.cxx:35 | the result of job k comes right after the results of jobs 0..k-1 |
| ParallelExecutor.MapFactoryJobs | tmva/tmva/src/ParallelExecutor.cxx:35 | mapping the lambda over `0 .. methods.size()-1` gives each job's record in job order, and the factory sees each job's calls in job order |
| ParallelExecutor.ClassificationResultAt | tmva/tmva/src/ParallelExecutor.cxx:21-31 | a step of `ClassificationResultsAt`: the results have one entry per job, and entry k is the record built from job k |
| ParallelExecutor.JobRecordOf | tmva/tmva/src/ParallelExecutor.cxx:22-29 | the record of method i of dataset j has exactly the keys dataset, rocint and method, holding that dataset, that method's name and its ROC integral |
| ParallelExecutor.ClassificationResultsAt | tmva/tmva/src/ParallelExecutor.cxx:21-35 | in classification mode there are `methods.size()` results, and the one at the position of method i of dataset j is that method's record |
| ParallelExecutor.CrossValidation.EvaluateFold | tmva/tmva/src/ParallelExecutor.cxx:69-71 | evaluating fold k records it and makes fold k's ROC value available at index k |
| ParallelExecutor.RunFoldJob | tmva/tmva/src/ParallelExecutor.cxx:68-73 | job k evaluates fold k and returns fold k's ROC value |
| ParallelExecutor.MapFolds | tmva/tmva/src/ParallelExecutor.cxx:77 | there are `GetNumFolds()` scores, score k is fold k's ROC value, folds are evaluated in order 0..n-1, and the stored ROC values are the old ones overwritten by folds 0..n-1's values and nothing else |
| ParallelExecutor.FoldValues | tmva/tmva/src/ParallelExecutor.cxx:69-77 | the ROC values of folds 0..n-1 as stored by `EvaluateFold`: keys exactly 0..n-1, key k holding fold k's value |
| ParallelExecutor.FoldValuesStep | tmva/tmva/src/ParallelExecutor.cxx:69-77 | evaluating fold k after folds 0..k-1 gives the stored values of folds 0..k |
| ParallelExecutor.Mean | tmva/tmva/src/ParallelExecutor.cxx:90 | the average `fROCAvg/fResults.size()` is none exactly when there are no folds; otherwise it times the fold count is the sum of the scores |
| ParallelExecutor.AverageROC | tmva/tmva/src/ParallelExecutor.cxx:84-90 | the accumulated average is none exactly when there are no folds; otherwise it times the fold count equals the sum of the scores (it is `Mean`) |
| ParallelExecutor.SumBounds | tmva/tmva/src/ParallelExecutor.cxx:84-89 | scores in [lo, hi] give a sum between n·lo and n·hi |
| ParallelExecutor.MeanBounds | tmva/tmva/src/ParallelExecutor.cxx:84-90 | when every fold's ROC value lies in [lo, hi], so does the average |
| ParallelExecutor.Globals.SetSilent | tmva/tmva/src/ParallelExecutor.cxx:38 | sets `gConfig().SetSilent` and leaves the output switch alone |
| ParallelExecutor.Globals.EnableOutput | tmva/tmva/src/ParallelExecutor.cxx:37 | clears the output inhibition and leaves the silent flag alone |
| ParallelExecutor.Globals.InhibitOutput | tmva/tmva/src/ParallelExecutor.cxx:61 | sets the output inhibition and leaves the silent flag alone |
| ParallelExecutor.Executor.SetNWorkers | tmva/tmva/src/ParallelExecutor.cxx:9 | sets the pool's worker count and changes nothing else |
| ParallelExecutor.Executor.RestartTimer | tmva/tmva/src/ParallelExecutor.cxx:33-34 | resets the stopwatch to zero and starts it |
| ParallelExecutor.Executor.StopTimer | tmva/tmva/src/ParallelExecutor.cxx:36 | stops the stopwatch with the elapsed time as its reading |
| ParallelExecutor.Executor.ReadRealTime | tmva/tmva/src/ParallelExecutor.cxx:56 | `fTimer.RealTime()` stops a running stopwatch (its reading becomes `elapsed`), leaves a stopped one alone, and returns the reading |
| ParallelExecutor.Executor.ExecuteFactory | tmva/tmva/src/ParallelExecutor.cxx:7-57 | the worker count is `jobs`. In classification mode: every booked method runs once, in job order; the results are their records; the return value is ("ParallelExecutor(Factory)", jobs, elapsed time, options); output is left enabled and silent is true. Otherwise: nothing runs, no flag changes, the stopwatch is left stopped, and the return value is ("Unknow", jobs, reading, options), where the reading is the new stop's `elapsed` if the stopwatch was running and its last reading if not |
| ParallelExecutor.Executor.ExecuteCV | tmva/tmva/src/ParallelExecutor.cxx:59-94 | the worker count is `jobs`; job k evaluates fold k and its score is fold k's ROC value; the average is the mean of the scores; the stored ROC values are the old ones overwritten by every fold's value; the return value is ("ParallelExecutor(CV)", jobs, elapsed time, options); output is left enabled and silent is true |
| Bits.Pow2 | tmva/tmva/src/VariableImportance.cxx:72 | `pow(2, n)` and `1 << n`: 2^n, at least 1; monotone and additive (`Pow2Monotone`, `Pow2Add`) |
| Bits.TestBit | tmva/tmva/src/VariableImportance.cxx:164 | `x & (1 << i)`: a value with a set bit is not zero |
| Bits.TestBitBound | tmva/tmva/src/VariableImportance.cxx:164 | a value with bit i set is at least 2^i |
| Bits.ClearBit | tmva/tmva/src/VariableImportance.cxx:165 | `x & ~(1 << i)` is never above x, and is x itself when bit i is already clear |
| Bits.IntLog2Bounds | tmva/tmva/src/VariableImportance.cxx:170 | `IntLog2(n)` is the exponent of the largest power of two not above n |
| Bits.ToBinary | tmva/tmva/src/VariableImportance.cxx:139 | `bitset<w>::to_string()` has w characters, each '0' or '1' |
| Bits.Pow2Monotone | tmva/tmva/src/VariableImportance.cxx:164-165 | `1 << m <= 1 << n` for m <= n |
| Bits.Pow2Add | tmva/tmva/src/VariableImportance.cxx:132 | `2^(a+b) = 2^a · 2^b` |
| Bits.ZeroHasNoBits | tmva/tmva/src/VariableImportance.cxx:135 | the empty mask has no bit set |
| Bits.AllOnesBits | tmva/tmva/src/VariableImportance.cxx:69-74 | `2^n - 1` has bit i set if and only if i < n |
| Bits.ClearBitValue | tmva/tmva/src/VariableImportance.cxx:164-165 | clearing a set bit i subtracts exactly 2^i (`x - y == 1 << i`) |
| Bits.ClearBitBits | tmva/tmva/src/VariableImportance.cxx:165 | `x & ~(1 << i)` keeps every bit but i and clears i |
| Bits.IntLog2OfPow2 | tmva/tmva/src/VariableImportance.cxx:170 | the base-2 logarithm of 2^i is i |
| Bits.BitsDetermineValue | tmva/tmva/src/VariableImportance.cxx:134 | two values below 2^w with the same w bits are equal |
| Bits.ToBinaryAt | tmva/tmva/src/VariableImportance.cxx:139 | bit j is printed at position w-1-j (most significant bit first) |
| Bits.ToBinaryInjective | tmva/tmva/src/VariableImportance.cxx:139 | distinct values below 2^w have distinct bitset texts |
| VariableImportance.Sum | tmva/tmva/src/VariableImportance.cxx:69-74 | for the i <= 32 the search uses, `Sum(i)` is `2^i - 1`, the mask with exactly the bits 0..i-1 set (so `Sum(0) = 0`); the model is exact for every i |
| VariableImportance.AddVariables | tmva/tmva/src/VariableImportance.cxx:142-144 | the `AddVariable` loop adds exactly the variables whose bit is set in the mask, in index order |
| VariableImportance.SelectedAll | tmva/tmva/src/VariableImportance.cxx:142-144 | a mask with every index bit set selects every variable in order |
| VariableImportance.SelectedAllBut | tmva/tmva/src/VariableImportance.cxx:179-181 | a mask with every index bit but i set selects all variables but `varNames[i]`, in order |
| VariableImportance.Uint32Modulus | tmva/tmva/src/VariableImportance.cxx:118 | `2^32` is the modulus of `uint32_t` |
| VariableImportance.SeedMask | tmva/tmva/src/VariableImportance.cxx:124-132 | the seed mask `x = Sum(nbits)` fits in nbits bits and is 0 exactly when there are no variables |
| VariableImportance.SeedMaskFits | tmva/tmva/src/VariableImportance.cxx:124-135 | for nbits <= 32 the seed mask survives `x = range`, and it is 0 exactly when nbits is 0 |
| VariableImportance.SubSeedOfBit | tmva/tmva/src/VariableImportance.cxx:163-170 | bit i of the seed is set if and only if i < nbits; clearing it gives the sub-seed mask, with `x - y = 2^i`, so the slot is i |
| VariableImportance.SubSeedBits | tmva/tmva/src/VariableImportance.cxx:165-166 | the sub-seed of bit i has every variable's bit but i set |
| VariableImportance.SubSeedEmpty | tmva/tmva/src/VariableImportance.cxx:167-171 | the sub-seed is 0 exactly when there is a single variable |
| VariableImportance.SubSeedTrainingsStep | tmva/tmva/src/VariableImportance.cxx:163-200 | the sub-seed trainings of bits 0..k come in bit order |
| VariableImportance.TrainingCount | tmva/tmva/src/VariableImportance.cxx:150-196 | the classifier is trained nbits + 1 times with two or more variables, once with one |
| VariableImportance.ExpectedTrainingAt | tmva/tmva/src/VariableImportance.cxx:139-177 | training 0 uses the seed's loader name and training k > 0 that of sub-seed k - 1 |
| VariableImportance.TrainingMasksDiffer | tmva/tmva/src/VariableImportance.cxx:132-165 | the seed and the sub-seed masks are pairwise distinct 32-bit values |
| VariableImportance.SeedAndSubSeedDiffer | tmva/tmva/src/VariableImportance.cxx:132-165 | no sub-seed mask equals the seed mask, and both fit in 32 bits |
| VariableImportance.SubSeedsDiffer | tmva/tmva/src/VariableImportance.cxx:165 | sub-seed masks of different bits differ, and both fit in 32 bits |
| VariableImportance.LoaderNameInjective | tmva/tmva/src/VariableImportance.cxx:139-177 | distinct 32-bit masks give distinct data-loader names |
| VariableImportance.LoaderNamesDistinct | tmva/tmva/src/VariableImportance.cxx:158-195 | every training of one search uses its own loader name, so `GetROCIntegral` by loader name reads that training's ROC integral |
| VariableImportance.ImportanceIsRocDrop | tmva/tmva/src/VariableImportance.cxx:158-196 | with two or more variables, slot i holds the seed's ROC integral (all variables) less that of training i + 1 (all variables but the i-th) |
| VariableImportance.ChargeSlot | tmva/tmva/src/VariableImportance.cxx:127-196 | a step of `ChargeAllBits`: slot i is still 0 before bit i is charged; charging it leaves slots 0..i holding their importances |
| VariableImportance.CountSlot | tmva/tmva/src/VariableImportance.cxx:163-200 | a step of `ChargeAllBits`: after bit i, slots 0..i have had exactly one contribution each |
| VariableImportance.BeyondLastSlot | tmva/tmva/src/VariableImportance.cxx:163-164 | a step of `ChargeAllBits`: bits at or above nbits charge nothing and train nothing |
| VariableImportance.Classifier.TrainAndEvaluate | tmva/tmva/src/VariableImportance.cxx:150-161 | one book/train/test/evaluate cycle: records the training and returns the ROC integral of that loader and those variables |
| VariableImportance.VariableImportance.TrainOnMask | tmva/tmva/src/VariableImportance.cxx:139-161 | a loader named after the mask's bitset text, holding the variables selected by the mask, is trained once, and its ROC integral is returned |
| VariableImportance.VariableImportance.TrainSubSeed | tmva/tmva/src/VariableImportance.cxx:177-195 | the sub-seed of bit i trains once on all variables but `varNames[i]` and returns that ROC integral |
| VariableImportance.VariableImportance.ChargeSubSeed | tmva/tmva/src/VariableImportance.cxx:177-196 | with two or more variables, bit i adds SROC - SSROC to slot i and trains sub-seed i after sub-seeds 0..i-1 |
| VariableImportance.VariableImportance.ChargeSetBit | tmva/tmva/src/VariableImportance.cxx:165-200 | for a set bit i, charging slot i and training sub-seed i moves the state from "bits below i done" to "bits below i + 1 done" |
| VariableImportance.VariableImportance.ChargeBit | tmva/tmva/src/VariableImportance.cxx:164-200 | one pass of the bit loop moves the importances, the contribution counts and the trainings from "bits below i done" to "bits below i + 1 done" |
| VariableImportance.VariableImportance.ChargeAllBits | tmva/tmva/src/VariableImportance.cxx:163-201 | after the 32-bit loop every slot holds its importance, the sub-seeds were trained in bit order, and each slot got exactly one contribution |
| VariableImportance.VariableImportance.TrainSeedAndSubSeeds | tmva/tmva/src/VariableImportance.cxx:138-201 | from the seed on, the seed and then every sub-seed is trained in bit order (nothing else), the slots hold the importances, and every slot gets exactly one contribution |
| VariableImportance.VariableImportance.EvaluateImportanceShort | tmva/tmva/src/VariableImportance.cxx:112-201 | with no variables it fails with "need at least one variable" before any training; otherwise it trains the seed and then each sub-seed in bit order (nothing else), the slots hold the importances, and every slot gets exactly one contribution |
| RVersion.RootVersion | base/inc/RVersion.h:21 | `ROOT_VERSION(a,b,c)`, `(a << 16) + (b << 8) + c`, is `a·65536 + b·256 + c` |
| RVersion.Major | base/inc/RVersion.h:21 | `code >> 16` is the number of whole 65536 steps in the code |
| RVersion.Minor | base/inc/RVersion.h:21 | `(code >> 8) & 0xff` is the second byte of the code, below 256 |
| RVersion.Patch | base/inc/RVersion.h:21 | `code & 0xff` is below 256 and differs from the code by a multiple of 256 |
| RVersion.DecodeEncode | base/inc/RVersion.h:21 | with b, c < 256, `code >> 16`, `(code >> 8) & 0xff` and `code & 0xff` give back a, b and c |
| RVersion.EncodeDecode | base/inc/RVersion.h:21 | every code is the encoding of its decoded fields, with minor and patch below 256 |
| RVersion.RootVersionInjective | base/inc/RVersion.h:21 | with b, c < 256 the encoding is injective |
| RVersion.CompareCodes | base/inc/RVersion.h:9-21 | with b, c < 256, `ROOT_VERSION(a,b,c) >= ROOT_VERSION(a',b',c')` if and only if (a,b,c) is lexicographically at least (a',b',c') |
| RVersion.RootVersionStrictlyIncreasing | base/inc/RVersion.h:21 | the code grows strictly in each argument when the other two are fixed and in range |
| RVersion.ReleaseFields | base/inc/RVersion.h:17 | `ROOT_RELEASE` "4.04/02f" writes major 4, minor 04 and patch 02 |
| RVersion.VersionCodeMatchesRelease | base/inc/RVersion.h:17-21 | `ROOT_VERSION_CODE` 263170 is `ROOT_VERSION(4,4,2)`, and its decoded fields are the numbers written in `ROOT_RELEASE` |

## Left out

- The worker pool's concurrency (`ThreadPool`): scheduling, the number of workers actually active, and the thread safety of the shared factory or cross-validation object. `Map` is modelled as a sequential loop in index order, which is the order of its results.
- The wall clock: the stopwatch's reading when it is next stopped (by `fTimer.Stop()` or by `fTimer.RealTime()` on a running stopwatch) is the parameter `elapsed`.
- The executor's header, which declares its constructor and fields, is not part of this model. `Executor.constructor` starts the stopwatch with nothing accumulated, as a `TStopwatch` does when it is constructed. It takes the logger's initial name as a parameter.
- Training, testing, evaluation and ROC integrals (`Factory::TrainMethod`, `GetROCIntegral`, `CrossValidation::EvaluateFold`, the internal classifier) are uninterpreted functions and recorded calls. `DataLoaderCopy`, `DeleteAllMethods` and `delete` of the loaders are part of the one recorded training.
- AverageROC: the average is computed over reals, not in `Float_t`, and without rounding. With zero folds the source divides 0 by 0 in floating point; the model returns none.
- The logged tables and messages (`Form`, `Log() << kINFO`) are not modelled. Only the logger's name is.
- The percentage normalisation and the histogram (`GetImportance`, `VariableImportance.cxx:76-110, 202-211`) are not modelled: they are floating-point and drawing code. The model returns the raw importances.
- `Evaluate()`, which only forwards to `EvaluateImportanceShort`, and the method name, title and options read from `fMethod` are not modelled. The classifier's ROC integral is keyed by loader name and variables.
- `SROC` and `SSROC` are `Float_t` in the source, so their rounding is not modelled. Importances are reals.
- Sum: `sum += pow(2, n)` converts the `ULong_t` sum to `double` and back at every step. From i = 54 the result is no longer 2^i - 1, and from i = 64 the conversion overflows. The model computes 2^i - 1 exactly for every i; the two agree for the i <= 32 the search uses.
- The slot index `log(x - y) / 0.693147` is modelled as the exact base-2 logarithm of `x - y = 2^i`, which is i. The double quotient is about `i · (1 + 2.6e-7)`, which truncates to i for every i < 32.
- EvaluateImportanceShort: requires at most 32 variables. The source's `std::bitset<32>` and 32-bit loop cannot represent more, and the model does not capture what the source does with more than 32 variables.
- RootVersion: the arguments are non-negative and unbounded. The macro's `int` overflow (`(a) << 16` for a >= 2^15) and negative arguments are not modelled.
- `1 << 31` is a signed shift in the source; the model treats it as the unsigned bit 31.
- EvaluateImportanceShort: with no variables the model stops with the error `NeedAtLeastOneVariable` before any training. The source's `Log()<<kFATAL<<"Error: need at least one variable."` has no `Endl`, so the message is not sent at that line and the source does not stop there. As written it goes on to train a seed loader with no variables. The model stops, as the fatal message evidently intends. The logger's abort and message delivery are not modelled.
- `GetMethodName` on a dataset that is not in the map cannot happen on the modelled path, so its behaviour there is not modelled.
- The internals of `CrossValidation` (k-fold splitting, per-fold training) are not modelled; `EvaluateFold(k)` makes fold k's ROC value available.
- `ROOT_RELEASE_DATE` and `ROOT_RELEASE_TIME` are constants only. There is no parser in the source. The letter `f` of "4.04/02f" is not part of the code.
- The Python random-forest binding, the MPI communicator and the `rootmkdir` command-line tool are not part of this model. They are bindings and wrappers with no logic of their own.
