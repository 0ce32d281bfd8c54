/**
 * The short variable-importance search of TMVA::VariableImportance: train
 * once on all variables (the seed mask), then once per variable on all the
 * others (the sub-seed masks), and charge each variable the drop in ROC
 * integral its removal causes. The classifier and its ROC integrals are
 * abstract: a Classifier records what it was trained on and reads its ROC
 * integral from an uninterpreted function.
 */
module VariableImportance {
  import opened Bits
  import opened Wrappers

  /** Width of the masks: `std::bitset<NBITS>` and `uint32_t`. */
  const NBITS: nat := 32
  const UINT32_MODULUS: nat := 0x1_0000_0000

  datatype Error = NeedAtLeastOneVariable

  /** One book/train/test/evaluate/delete cycle of the classifier on one data loader. */
  datatype Training = Training(loader: string, variables: seq<string>)

  /** The internal Factory used as a classifier. */
  class Classifier {
    var trainings: seq<Training>
    const rocIntegral: (string, seq<string>) -> real

    constructor (rocIntegral: (string, seq<string>) -> real)
      ensures this.rocIntegral == rocIntegral && trainings == []
    {
      this.rocIntegral := rocIntegral;
      trainings := [];
    }

    /**
     * BookMethod on a loader holding `variables`, TrainAllMethods,
     * TestAllMethods, EvaluateAllMethods, GetROCIntegral(loader name),
     * DeleteAllMethods.
     */
    method TrainAndEvaluate(loader: string, variables: seq<string>) returns (roc: real)
      modifies this
      ensures trainings == old(trainings) + [Training(loader, variables)]
      ensures roc == rocIntegral(loader, variables)
    {
      trainings := trainings + [Training(loader, variables)];
      roc := rocIntegral(loader, variables);
    }
  }

  /** Sum(i): adds 2^n for n = 0 .. i-1, giving the mask of the low i bits. */
  method Sum(i: nat) returns (sum: nat)
    ensures sum == Pow2(i) - 1
    ensures forall j: nat :: TestBit(sum, j) <==> j < i
  {
    sum := 0;
    var n := 0;
    while n < i
      invariant n <= i
      invariant sum == Pow2(n) - 1
    {
      sum := sum + Pow2(n);
      n := n + 1;
    }
    forall j: nat
      ensures TestBit(sum, j) <==> j < i
    {
      AllOnesBits(i, j);
    }
  }

  /** The variables whose bit is set in `mask`, in index order. */
  function Selected(names: seq<string>, mask: nat): seq<string>
  {
    if names == [] then []
    else
      var last := |names| - 1;
      Selected(names[..last], mask) + (if TestBit(mask, last) then [names[last]] else [])
  }

  /** All variables but the i-th, in their original order. */
  function Without(names: seq<string>, i: nat): seq<string>
    requires i < |names|
  {
    names[..i] + names[i + 1..]
  }

  /** The loop `if (bitset[index]) loader->AddVariable(varNames[index])` over index < nbits. */
  method AddVariables(names: seq<string>, mask: nat) returns (vars: seq<string>)
    ensures vars == Selected(names, mask)
  {
    vars := [];
    var index := 0;
    while index < |names|
      invariant index <= |names|
      invariant vars == Selected(names[..index], mask)
    {
      assert names[..index + 1][..index] == names[..index];
      if TestBit(mask, index) {
        vars := vars + [names[index]];
      }
      index := index + 1;
    }
    assert names[..index] == names;
  }

  /** A mask with every index bit set selects every variable. */
  lemma {:induction false} SelectedAll(names: seq<string>, mask: nat)
    requires forall j :: 0 <= j < |names| ==> TestBit(mask, j)
    ensures Selected(names, mask) == names
  {
    if names != [] {
      var last := |names| - 1;
      SelectedAll(names[..last], mask);
      assert names[..last] + [names[last]] == names;
    }
  }

  /** A mask with every index bit but i set selects all variables except names[i]. */
  lemma {:induction false} SelectedAllBut(names: seq<string>, mask: nat, i: nat)
    requires i < |names|
    requires forall j :: 0 <= j < |names| ==> (TestBit(mask, j) <==> j != i)
    ensures Selected(names, mask) == Without(names, i)
  {
    var last := |names| - 1;
    var front := names[..last];
    if i == last {
      SelectedAll(front, mask);
      assert Without(names, i) == front;
    } else {
      SelectedAllBut(front, mask, i);
      assert front[..i] == names[..i];
      assert front[i + 1..] + [names[last]] == names[i + 1..];
    }
  }

  /** Seed mask: `Sum(nbits)`, every variable; it fits in n bits and is 0 only with no variables. */
  function SeedMask(n: nat): (r: nat)
    ensures r < Pow2(n)
    ensures r == 0 <==> n == 0
  {
    Pow2Monotone(if n > 0 then 1 else 0, n);
    Pow2(n) - 1
  }

  /** Sub-seed mask of variable i: the seed mask less bit i. */
  function SubSeedMask(n: nat, i: nat): nat
    requires i < n
  {
    Pow2Monotone(i + 1, n);
    Pow2(n) - 1 - Pow2(i)
  }

  /** 2^32, the modulus of `uint32_t`. */
  lemma Uint32Modulus()
    ensures Pow2(NBITS) == UINT32_MODULUS
  {
    assert Pow2(8) == 256;
    Pow2Add(8, 8);
    assert Pow2(16) == 65536;
    Pow2Add(16, 16);
  }

  /** The seed mask of at most NBITS variables survives the cast to `uint32_t`, and is zero only without variables. */
  lemma SeedMaskFits(n: nat)
    requires n <= NBITS
    ensures SeedMask(n) < UINT32_MODULUS
    ensures SeedMask(n) % UINT32_MODULUS == SeedMask(n)
    ensures SeedMask(n) == 0 <==> n == 0
  {
    Pow2Monotone(n, NBITS);
    Uint32Modulus();
    if n > 0 {
      Pow2Monotone(1, n);
    }
  }

  /**
   * The bit loop over the seed mask x = Sum(n): bit i is set exactly for
   * i < n; clearing it gives the sub-seed mask y, with x - y = 2^i, so the
   * slot log2(x - y) is i, and y keeps every bit below n except i.
   */
  lemma SubSeedOfBit(n: nat, i: nat)
    ensures TestBit(SeedMask(n), i) <==> i < n
    ensures i < n ==> ClearBit(SeedMask(n), i) == SubSeedMask(n, i)
    ensures i < n ==> SeedMask(n) - ClearBit(SeedMask(n), i) == Pow2(i)
    ensures i < n ==> IntLog2(SeedMask(n) - ClearBit(SeedMask(n), i)) == i
  {
    AllOnesBits(n, i);
    if i < n {
      ClearBitValue(SeedMask(n), i);
      IntLog2OfPow2(i);
    }
  }

  /** The sub-seed without bit i keeps exactly the other variables' bits. */
  lemma SubSeedBits(n: nat, i: nat)
    requires i < n
    ensures forall j :: 0 <= j < n ==> (TestBit(SubSeedMask(n, i), j) <==> j != i)
  {
    SubSeedOfBit(n, i);
    forall j | 0 <= j < n
      ensures TestBit(ClearBit(SeedMask(n), i), j) <==> j != i
    {
      ClearBitBits(SeedMask(n), i, j);
      AllOnesBits(n, j);
    }
  }

  /** Data loader name: `bitset.to_string()`. */
  function LoaderName(mask: nat): string
  {
    ToBinary(mask, NBITS)
  }

  function SeedTraining(names: seq<string>): Training
  {
    Training(LoaderName(SeedMask(|names|)), names)
  }

  function SubSeedTraining(names: seq<string>, i: nat): Training
    requires i < |names|
  {
    Training(LoaderName(SubSeedMask(|names|, i)), Without(names, i))
  }

  /** The sub-seed trainings of the first k variables, in index order. */
  function SubSeedTrainings(names: seq<string>, k: nat): seq<Training>
    requires k <= |names|
  {
    seq(k, i requires 0 <= i < k => SubSeedTraining(names, i))
  }

  lemma SubSeedTrainingsStep(names: seq<string>, k: nat)
    requires k < |names|
    ensures SubSeedTrainings(names, k + 1) == SubSeedTrainings(names, k) + [SubSeedTraining(names, k)]
  {
  }

  /**
   * Every training the search performs: the seed, then (with two or more
   * variables) one sub-seed per variable.
   */
  function ExpectedTrainings(names: seq<string>): seq<Training>
  {
    [SeedTraining(names)] + (if |names| <= 1 then [] else SubSeedTrainings(names, |names|))
  }

  /**
   * The importance of variable i: the seed's ROC integral less that of the
   * sub-seed without i; with a single variable, the seed's ROC integral
   * less 0.5 (a random classifier).
   */
  function Importance(names: seq<string>, roc: (string, seq<string>) -> real, i: nat): real
    requires i < |names|
  {
    var seedRoc := roc(SeedTraining(names).loader, names);
    if |names| == 1 then seedRoc - 0.5
    else seedRoc - roc(SubSeedTraining(names, i).loader, Without(names, i))
  }

  function Importances(names: seq<string>, roc: (string, seq<string>) -> real): seq<real>
  {
    seq(|names|, i requires 0 <= i < |names| => Importance(names, roc, i))
  }

  /**
   * With two or more variables, slot i holds the ROC integral of the seed
   * training (every variable) less that of training i + 1 (every variable
   * but the i-th).
   */
  lemma ImportanceIsRocDrop(names: seq<string>, roc: (string, seq<string>) -> real, i: nat)
    requires 2 <= |names| && i < |names|
    ensures var t := ExpectedTrainings(names);
      && |t| == |names| + 1
      && t[0].variables == names && t[i + 1].variables == Without(names, i)
      && Importances(names, roc)[i] == roc(t[0].loader, t[0].variables) - roc(t[i + 1].loader, t[i + 1].variables)
  {
    assert ExpectedTrainings(names)[i + 1] == SubSeedTraining(names, i);
  }

  /** The importances of the slots below i, zero above. */
  function ImportancesBelow(names: seq<string>, roc: (string, seq<string>) -> real, i: nat): seq<real>
  {
    seq(|names|, j requires 0 <= j < |names| => if j < i then Importance(names, roc, j) else 0.0)
  }

  /** One contribution for each slot below i, none above. */
  function CountsBelow(n: nat, i: nat): seq<nat>
  {
    seq(n, j requires 0 <= j < n => if j < i then 1 else 0)
  }

  /** The sub-seed trainings of the bits below i. */
  function SubSeedTrainingsBelow(names: seq<string>, i: nat): seq<Training>
  {
    if |names| <= 1 then [] else SubSeedTrainings(names, if i < |names| then i else |names|)
  }

  /** Charging slot i moves the partial importances from i to i + 1. */
  lemma ChargeSlot(names: seq<string>, roc: (string, seq<string>) -> real, i: nat, imp: seq<real>)
    requires i < |names| && imp == ImportancesBelow(names, roc, i)
    ensures imp[i] == 0.0
    ensures imp[i := Importance(names, roc, i)] == ImportancesBelow(names, roc, i + 1)
  {
  }

  /** Counting slot i moves the partial counts from i to i + 1. */
  lemma CountSlot(n: nat, i: nat, counts: seq<nat>)
    requires i < n && counts == CountsBelow(n, i)
    ensures counts[i := counts[i] + 1] == CountsBelow(n, i + 1)
  {
  }

  /** Bits at or above the number of variables charge nothing. */
  lemma BeyondLastSlot(names: seq<string>, roc: (string, seq<string>) -> real, i: nat)
    requires |names| <= i
    ensures ImportancesBelow(names, roc, i) == ImportancesBelow(names, roc, i + 1)
    ensures CountsBelow(|names|, i) == CountsBelow(|names|, i + 1)
    ensures SubSeedTrainingsBelow(names, i) == SubSeedTrainingsBelow(names, i + 1)
  {
  }

  /** The classifier is trained nbits + 1 times, or once with a single variable. */
  lemma TrainingCount(names: seq<string>)
    ensures |names| >= 2 ==> |ExpectedTrainings(names)| == |names| + 1
    ensures |names| <= 1 ==> |ExpectedTrainings(names)| == 1
  {
  }

  /** Clearing one bit of the seed mask leaves zero exactly when there is a single variable. */
  lemma {:induction false} SubSeedEmpty(n: nat, i: nat)
    requires i < n
    ensures SubSeedMask(n, i) == 0 <==> n == 1
  {
    if n >= 2 {
      Pow2Monotone(i, n - 1);
      assert Pow2(n) == 2 * Pow2(n - 1);
      Pow2Monotone(1, n - 1);
    }
  }

  /**
   * Every training of the search uses its own data loader name, so each
   * GetROCIntegral lookup by name reads the ROC integral of its own mask.
   */
  lemma LoaderNamesDistinct(names: seq<string>, p: nat, q: nat)
    requires |names| <= NBITS
    requires p < q < |ExpectedTrainings(names)|
    ensures ExpectedTrainings(names)[p].loader != ExpectedTrainings(names)[q].loader
  {
    var n := |names|;
    ExpectedTrainingAt(names, p);
    ExpectedTrainingAt(names, q);
    TrainingMasksDiffer(n, p, q);
    LoaderNameInjective(TrainingMask(n, p), TrainingMask(n, q));
  }

  /** The mask of the k-th training: the seed first, then sub-seed k - 1. */
  function TrainingMask(n: nat, k: nat): nat
    requires k <= n
  {
    if k == 0 then SeedMask(n) else SubSeedMask(n, k - 1)
  }

  /** The seed and the sub-seed masks are distinct 32-bit values. */
  lemma TrainingMasksDiffer(n: nat, p: nat, q: nat)
    requires p < q <= n <= NBITS
    ensures TrainingMask(n, p) != TrainingMask(n, q)
    ensures TrainingMask(n, p) < UINT32_MODULUS && TrainingMask(n, q) < UINT32_MODULUS
  {
    if p == 0 {
      SeedAndSubSeedDiffer(n, q - 1);
    } else {
      SubSeedsDiffer(n, p - 1, q - 1);
    }
  }

  lemma ExpectedTrainingAt(names: seq<string>, k: nat)
    requires k < |ExpectedTrainings(names)|
    ensures k <= |names|
    ensures ExpectedTrainings(names)[k].loader == LoaderName(TrainingMask(|names|, k))
  {
    if k > 0 {
      assert ExpectedTrainings(names)[k] == SubSeedTraining(names, k - 1);
    }
  }

  lemma SeedAndSubSeedDiffer(n: nat, i: nat)
    requires i < n <= NBITS
    ensures SeedMask(n) != SubSeedMask(n, i)
    ensures SeedMask(n) < UINT32_MODULUS && SubSeedMask(n, i) < UINT32_MODULUS
  {
    SeedMaskFits(n);
  }

  lemma SubSeedsDiffer(n: nat, i: nat, k: nat)
    requires i < k < n <= NBITS
    ensures SubSeedMask(n, i) != SubSeedMask(n, k)
    ensures SubSeedMask(n, i) < UINT32_MODULUS && SubSeedMask(n, k) < UINT32_MODULUS
  {
    SeedMaskFits(n);
    Pow2Monotone(i + 1, k);
  }

  /** Distinct 32-bit masks give distinct loader names. */
  lemma LoaderNameInjective(a: nat, b: nat)
    requires a < UINT32_MODULUS && b < UINT32_MODULUS && a != b
    ensures LoaderName(a) != LoaderName(b)
  {
    Uint32Modulus();
    if LoaderName(a) == LoaderName(b) {
      ToBinaryInjective(a, b, NBITS);
    }
  }

  /** TMVA::VariableImportance, holding the loader's variable names and its classifier. */
  class VariableImportance {
    const varNames: seq<string>
    const classifier: Classifier

    constructor (varNames: seq<string>, rocIntegral: (string, seq<string>) -> real)
      ensures this.varNames == varNames
      ensures fresh(classifier) && classifier.trainings == [] && classifier.rocIntegral == rocIntegral
    {
      this.varNames := varNames;
      classifier := new Classifier(rocIntegral);
    }

    /**
     * A data loader named after the mask's bitset text, holding the
     * variables whose bit is set, booked, trained, tested and evaluated;
     * returns its ROC integral.
     */
    method TrainOnMask(mask: nat) returns (roc: real)
      modifies classifier
      ensures classifier.trainings == old(classifier.trainings) + [Training(LoaderName(mask), Selected(varNames, mask))]
      ensures roc == classifier.rocIntegral(LoaderName(mask), Selected(varNames, mask))
    {
      var variables := AddVariables(varNames, mask);
      roc := classifier.TrainAndEvaluate(ToBinary(mask, NBITS), variables);
    }

    /**
     * EvaluateImportanceShort: returns the raw importances (one slot per
     * variable) and, as ghost output, how many contributions each slot got.
     */
    method EvaluateImportanceShort() returns (result: Result<seq<real>, Error>, ghost contributions: seq<nat>)
      requires |varNames| <= NBITS
      modifies classifier
      ensures result.Failure? <==> |varNames| == 0
      ensures result.Failure? ==> result.error == NeedAtLeastOneVariable
      ensures result.Failure? ==> classifier.trainings == old(classifier.trainings)
      ensures result.Success? ==> result.value == Importances(varNames, classifier.rocIntegral)
      ensures result.Success? ==> classifier.trainings == old(classifier.trainings) + ExpectedTrainings(varNames)
      ensures result.Success? ==> |contributions| == |varNames| && forall j :: 0 <= j < |varNames| ==> contributions[j] == 1
    {
      var nbits := |varNames|;
      var range := Sum(nbits);
      var importances := seq(nbits, _ => 0.0);
      contributions := seq(nbits, _ => 0);

      SeedMaskFits(nbits);
      var x := range % UINT32_MODULUS;
      if x == 0 {
        return Failure(NeedAtLeastOneVariable), contributions;
      }

      importances, contributions := TrainSeedAndSubSeeds(x, importances, contributions);
      result := Success(importances);
    }

    /** From the seed loader on: the seed is trained, then every bit is charged. */
    method TrainSeedAndSubSeeds(x: nat, zeros: seq<real>, ghost none: seq<nat>)
      returns (importances: seq<real>, ghost contributions: seq<nat>)
      requires 1 <= |varNames| <= NBITS && x == SeedMask(|varNames|)
      requires |zeros| == |varNames| && forall j :: 0 <= j < |zeros| ==> zeros[j] == 0.0
      requires |none| == |varNames| && forall j :: 0 <= j < |none| ==> none[j] == 0
      modifies classifier
      ensures importances == Importances(varNames, classifier.rocIntegral)
      ensures classifier.trainings == old(classifier.trainings) + ExpectedTrainings(varNames)
      ensures |contributions| == |varNames| && forall j :: 0 <= j < |varNames| ==> contributions[j] == 1
    {
      ghost var before := classifier.trainings;
      forall j | 0 <= j < |varNames|
        ensures TestBit(x, j)
      {
        AllOnesBits(|varNames|, j);
      }
      SelectedAll(varNames, x);
      var seedRoc := TrainOnMask(x);
      assert classifier.trainings == before + [SeedTraining(varNames)];
      importances, contributions := ChargeAllBits(x, seedRoc, zeros, none);
      assert classifier.trainings == before + ExpectedTrainings(varNames);
    }

    /** The loop over the NBITS bits of the seed mask x, from bit 0 up. */
    method ChargeAllBits(x: nat, seedRoc: real, zeros: seq<real>, ghost none: seq<nat>)
      returns (importances: seq<real>, ghost contributions: seq<nat>)
      requires 1 <= |varNames| <= NBITS && x == SeedMask(|varNames|)
      requires seedRoc == classifier.rocIntegral(SeedTraining(varNames).loader, varNames)
      requires |zeros| == |varNames| && forall j :: 0 <= j < |zeros| ==> zeros[j] == 0.0
      requires |none| == |varNames| && forall j :: 0 <= j < |none| ==> none[j] == 0
      modifies classifier
      ensures importances == Importances(varNames, classifier.rocIntegral)
      ensures classifier.trainings ==
        old(classifier.trainings) + (if |varNames| == 1 then [] else SubSeedTrainings(varNames, |varNames|))
      ensures |contributions| == |varNames| && forall j :: 0 <= j < |varNames| ==> contributions[j] == 1
    {
      importances, contributions := zeros, none;
      assert importances == ImportancesBelow(varNames, classifier.rocIntegral, 0);
      assert contributions == CountsBelow(|varNames|, 0);
      var i := 0;
      while i < NBITS
        invariant 0 <= i <= NBITS
        invariant seedRoc == classifier.rocIntegral(SeedTraining(varNames).loader, varNames)
        invariant importances == ImportancesBelow(varNames, classifier.rocIntegral, i)
        invariant contributions == CountsBelow(|varNames|, i)
        invariant classifier.trainings == old(classifier.trainings) + SubSeedTrainingsBelow(varNames, i)
      {
        importances, contributions := ChargeBit(x, i, seedRoc, importances, contributions, old(classifier.trainings));
        i := i + 1;
      }
      assert importances == Importances(varNames, classifier.rocIntegral);
    }

    /**
     * One pass of the loop over the NBITS bits of the seed mask x: when bit
     * i is set, clear it to get the sub-seed y, take the slot from
     * log2(x - y), and charge it SROC - 0.5 (y empty) or SROC - SSROC;
     * afterwards the slots below i + 1 hold their importances.
     */
    method ChargeBit(x: nat, i: nat, seedRoc: real, importances: seq<real>, ghost contributions: seq<nat>,
                     ghost before: seq<Training>)
      returns (importances': seq<real>, ghost contributions': seq<nat>)
      requires 1 <= |varNames| <= NBITS && x == SeedMask(|varNames|)
      requires seedRoc == classifier.rocIntegral(SeedTraining(varNames).loader, varNames)
      requires importances == ImportancesBelow(varNames, classifier.rocIntegral, i)
      requires contributions == CountsBelow(|varNames|, i)
      requires classifier.trainings == before + SubSeedTrainingsBelow(varNames, i)
      modifies classifier
      ensures importances' == ImportancesBelow(varNames, classifier.rocIntegral, i + 1)
      ensures contributions' == CountsBelow(|varNames|, i + 1)
      ensures classifier.trainings == before + SubSeedTrainingsBelow(varNames, i + 1)
    {
      var nbits := |varNames|;
      SubSeedOfBit(nbits, i);
      if TestBit(x, i) {
        var y := ClearBit(x, i);
        var ny := IntLog2(x - y);
        assert i < nbits && y == SubSeedMask(nbits, i) && ny == i;
        importances', contributions' := ChargeSetBit(y, ny, seedRoc, importances, contributions, before);
      } else {
        importances', contributions' := importances, contributions;
        BeyondLastSlot(varNames, classifier.rocIntegral, i);
      }
    }

    /** The body of the bit loop for a bit i that is set: y is the sub-seed mask and i its slot. */
    method ChargeSetBit(y: nat, i: nat, seedRoc: real, importances: seq<real>, ghost contributions: seq<nat>,
                        ghost before: seq<Training>)
      returns (importances': seq<real>, ghost contributions': seq<nat>)
      requires i < |varNames| <= NBITS && y == SubSeedMask(|varNames|, i)
      requires seedRoc == classifier.rocIntegral(SeedTraining(varNames).loader, varNames)
      requires importances == ImportancesBelow(varNames, classifier.rocIntegral, i)
      requires contributions == CountsBelow(|varNames|, i)
      requires classifier.trainings == before + SubSeedTrainingsBelow(varNames, i)
      modifies classifier
      ensures importances' == ImportancesBelow(varNames, classifier.rocIntegral, i + 1)
      ensures contributions' == CountsBelow(|varNames|, i + 1)
      ensures classifier.trainings == before + SubSeedTrainingsBelow(varNames, i + 1)
    {
      var nbits := |varNames|;
      SubSeedEmpty(nbits, i);
      ChargeSlot(varNames, classifier.rocIntegral, i, importances);
      CountSlot(nbits, i, contributions);
      if y == 0 {
        assert seedRoc - 0.5 == Importance(varNames, classifier.rocIntegral, i);
        importances' := importances[i := seedRoc - 0.5];
      } else {
        importances' := ChargeSubSeed(y, i, seedRoc, importances, before);
      }
      contributions' := contributions[i := contributions[i] + 1];
    }

    /** Slot i of a search over two or more variables is charged SROC - SSROC. */
    method ChargeSubSeed(y: nat, i: nat, seedRoc: real, importances: seq<real>, ghost before: seq<Training>)
      returns (importances': seq<real>)
      requires 2 <= |varNames| <= NBITS && i < |varNames| && y == SubSeedMask(|varNames|, i)
      requires seedRoc == classifier.rocIntegral(SeedTraining(varNames).loader, varNames)
      requires importances == ImportancesBelow(varNames, classifier.rocIntegral, i)
      requires classifier.trainings == before + SubSeedTrainingsBelow(varNames, i)
      modifies classifier
      ensures importances' == ImportancesBelow(varNames, classifier.rocIntegral, i + 1)
      ensures classifier.trainings == before + SubSeedTrainingsBelow(varNames, i + 1)
    {
      ChargeSlot(varNames, classifier.rocIntegral, i, importances);
      var subRoc := TrainSubSeed(y, i);
      SubSeedTrainingsStep(varNames, i);
      assert importances[i] + (seedRoc - subRoc) == Importance(varNames, classifier.rocIntegral, i);
      importances' := importances[i := importances[i] + (seedRoc - subRoc)];
    }

    /** Training on the sub-seed y, the seed without bit i, trains on every variable but variable i. */
    method TrainSubSeed(y: nat, i: nat) returns (subRoc: real)
      requires i < |varNames| <= NBITS && y == SubSeedMask(|varNames|, i)
      modifies classifier
      ensures classifier.trainings == old(classifier.trainings) + [SubSeedTraining(varNames, i)]
      ensures subRoc == classifier.rocIntegral(SubSeedTraining(varNames, i).loader, Without(varNames, i))
    {
      SubSeedBits(|varNames|, i);
      SelectedAllBut(varNames, y, i);
      subRoc := TrainOnMask(y);
    }
  }
}
