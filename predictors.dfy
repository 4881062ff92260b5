/** The predictor capability and its one variant, which delegates each molecule to the
    external ensemble-prediction tool through a pair of temporary files. */
module Predictors {
  import opened Wrappers
  import opened Normalisation
  import opened TempFiles

  /** What can go wrong before the tool is run: creating the input file, writing the
      SMILES into it, creating the output file. */
  datatype SetupFaults = SetupFaults(inputCreateFails: bool, inputWriteFails: bool, outputCreateFails: bool)
  {
    predicate Aborts() { inputCreateFails || inputWriteFails || outputCreateFails }
  }

  /** Which of the two deletions in the cleanup fail (their errors are only logged). */
  datatype CleanupFaults = CleanupFaults(inputUnlinkFails: bool, outputUnlinkFails: bool)
  {
    predicate NoneFail() { !inputUnlinkFails && !outputUnlinkFails }
  }

  /** The environment of one predict_single call. */
  datatype Faults = Faults(setup: SetupFaults, cleanup: CleanupFaults)

  /** The external tool's behaviour in one call, as a function of the model path and the
      SMILES string. Each call gets its own, so a repeated molecule may fare differently. */
  type Tool = (string, string) -> ToolOutcome

  datatype InitError = ModelPathMissing(path: string)

  /** The vector one predict_single call returns. It depends on the setup faults and the
      tool's outcome and on nothing else: how the cleanup goes never changes it. */
  function Prediction(setup: SetupFaults, o: ToolOutcome): (r: seq<Value>)
    ensures |r| >= Width
    ensures setup.Aborts() ==> r == Sentinel()
  {
    if setup.Aborts() then Sentinel() else Normalise(o)
  }

  /** A successful call returns the numeric first-row values as its prefix, padded with
      negative infinity up to Width positions. */
  lemma SuccessfulPrediction(setup: SetupFaults, o: ToolOutcome)
    requires !setup.Aborts() && o.Table? && |NumericValues(o.columns)| > 0
    ensures var r, n := Prediction(setup, o), |NumericValues(o.columns)|;
            |r| == Max(Width, n) && r[..n] == NumericValues(o.columns) &&
            forall k :: n <= k < |r| ==> r[k] == NegInf
  {
    NumericValuesInColumnOrder(o.columns);
  }

  /** The file that survives a cleanup whose deletion of it failed. */
  function Kept(name: Option<nat>, unlinkFails: bool): (kept: set<nat>)
  {
    if name.Some? && unlinkFails then {name.value} else {}
  }

  /** No deletion fails in the first n calls. */
  ghost predicate CleanFor(faults: nat -> Faults, n: nat)
  {
    forall j :: 0 <= j < n ==> faults(j).cleanup.NoneFail()
  }

  /** Every predictor's results for a list of molecules: the i-th is the vector for the
      i-th molecule, given the tool's behaviour and the faults of the i-th call. */
  ghost predicate PredictedInOrder(smiles: seq<string>, rs: seq<seq<Value>>, modelsPath: string,
                                   tools: nat -> Tool, faults: nat -> Faults)
  {
    |rs| == |smiles| &&
    forall i :: 0 <= i < |smiles| ==> rs[i] == Prediction(faults(i).setup, tools(i)(modelsPath, smiles[i]))
  }

  /** One more call extends the in-order results by that call's vector. */
  lemma PredictedInOrderExtend(smiles: seq<string>, i: nat, rs: seq<seq<Value>>, r: seq<Value>,
                               modelsPath: string, tools: nat -> Tool, faults: nat -> Faults)
    requires i < |smiles|
    requires PredictedInOrder(smiles[..i], rs, modelsPath, tools, faults)
    requires r == Prediction(faults(i).setup, tools(i)(modelsPath, smiles[i]))
    ensures PredictedInOrder(smiles[..i + 1], rs + [r], modelsPath, tools, faults)
  {
  }

  /** One more call keeps the disk free of leftovers if it, too, has no failed deletion. */
  lemma CleanForExtend(faults: nat -> Faults, i: nat)
    ensures CleanFor(faults, i + 1) <==> CleanFor(faults, i) && faults(i).cleanup.NoneFail()
  {
  }

  class ChempropPredictor {
    /** The model ensemble's location, fixed for the predictor's lifetime. */
    const modelsPath: string

    /** Stores the path. The existence guard itself is Create's: `existing` here is a
        ghost argument, so this precondition only records what Create has checked. */
    constructor (modelsPath: string, ghost existing: set<string>)
      requires modelsPath in existing
      ensures this.modelsPath == modelsPath
    {
      this.modelsPath := modelsPath;
    }

    /** Construction fails exactly when the model path does not exist; otherwise the path
        is kept unchanged. */
    static method Create(modelsPath: string, existing: set<string>) returns (r: Result<ChempropPredictor, InitError>)
      ensures r.Failure? <==> modelsPath !in existing
      ensures r.Failure? ==> r.error == ModelPathMissing(modelsPath)
      ensures r.Success? ==> fresh(r.value) && r.value.modelsPath == modelsPath
    {
      if modelsPath !in existing {
        return Failure(ModelPathMissing(modelsPath));
      }
      var p := new ChempropPredictor(modelsPath, existing);
      r := Success(p);
    }

    /** Runs the tool on an existing output file and normalises what it produced. */
    method InvokeAndRead(smiles: string, tool: Tool, output: nat, disk: Disk) returns (r: seq<Value>)
      requires disk.Valid()
      modifies disk
      ensures disk.Valid()
      ensures r == Normalise(tool(modelsPath, smiles))
      ensures disk.live == if tool(modelsPath, smiles).OutputMissing? then old(disk.live) - {output}
                           else old(disk.live)
    {
      var outcome := tool(modelsPath, smiles);
      if outcome.OutputMissing? {
        disk.Discard(output);
      }
      match outcome {
        case Table(cols) =>
          var means := NumericValues(cols);
          if |means| == 0 {
            r := Sentinel();
          } else {
            if |means| < Width {
              means := means + NegInfs(Width - |means|);
            }
            r := means;
          }
        case _ =>
          r := Sentinel();
      }
    }

    /** The finally block: delete whichever temporary files were bound, swallowing errors. */
    static method Cleanup(input: Option<nat>, output: Option<nat>, cleanup: CleanupFaults, disk: Disk)
      requires disk.Valid()
      requires input.Some? && output.Some? ==> input.value != output.value
      modifies disk
      ensures disk.Valid()
      ensures disk.live == old(disk.live)
                           - (if input.Some? && !cleanup.inputUnlinkFails then {input.value} else {})
                           - (if output.Some? && !cleanup.outputUnlinkFails then {output.value} else {})
    {
      if input.Some? {
        var _ := disk.Unlink(input.value, cleanup.inputUnlinkFails);
      }
      if output.Some? {
        var _ := disk.Unlink(output.value, cleanup.outputUnlinkFails);
      }
    }

    /** predict_single with the input file's name bound as soon as the file exists, so
        that the cleanup deletes it even when writing the SMILES into it fails. The result
        is the Prediction for the tool's outcome; both temporary files are fresh, and
        afterwards the only ones still present are those whose deletion failed. */
    method PredictSingle(smiles: string, tool: Tool, f: Faults, disk: Disk)
      returns (r: seq<Value>, ghost input: Option<nat>, ghost output: Option<nat>)
      requires disk.Valid()
      modifies disk
      ensures disk.Valid()
      ensures r == Prediction(f.setup, tool(modelsPath, smiles))
      ensures input.Some? <==> !f.setup.inputCreateFails
      ensures output.Some? <==> !f.setup.Aborts()
      ensures input.Some? ==> input.value !in old(disk.live)
      ensures output.Some? ==> output.value !in old(disk.live) && input.Some? && output.value != input.value
      ensures disk.live == old(disk.live) + Kept(input, f.cleanup.inputUnlinkFails)
                           + (if tool(modelsPath, smiles).OutputMissing? then {}
                              else Kept(output, f.cleanup.outputUnlinkFails))
      ensures old(disk.live) <= disk.live
      ensures f.cleanup.NoneFail() ==> disk.live == old(disk.live)
    {
      r := Sentinel();
      var tempInput := disk.CreateTemp(f.setup.inputCreateFails);
      var tempOutput: Option<nat> := None;
      if tempInput.Some? && !f.setup.inputWriteFails {
        tempOutput := disk.CreateTemp(f.setup.outputCreateFails);
        if tempOutput.Some? {
          r := InvokeAndRead(smiles, tool, tempOutput.value, disk);
        }
      }
      Cleanup(tempInput, tempOutput, f.cleanup, disk);
      input, output := tempInput, tempOutput;
    }

    /** predict_single as written: the input file's name is bound only after the SMILES
        has been written, so a failing write leaves that file behind whatever the cleanup
        does. */
    method PredictSingleAsWritten(smiles: string, tool: Tool, f: Faults, disk: Disk)
      returns (r: seq<Value>, ghost created: Option<nat>, ghost input: Option<nat>, ghost output: Option<nat>)
      requires disk.Valid()
      modifies disk
      ensures disk.Valid()
      ensures r == Prediction(f.setup, tool(modelsPath, smiles))
      ensures created.Some? <==> !f.setup.inputCreateFails
      ensures input == if f.setup.inputWriteFails then None else created
      ensures output.Some? <==> !f.setup.Aborts()
      ensures created.Some? ==> created.value !in old(disk.live)
      ensures output.Some? ==> output.value !in old(disk.live) && input.Some? && output.value != input.value
      ensures disk.live == old(disk.live) + Kept(input, f.cleanup.inputUnlinkFails)
                           + (if f.setup.inputWriteFails then Kept(created, true) else {})
                           + (if tool(modelsPath, smiles).OutputMissing? then {}
                              else Kept(output, f.cleanup.outputUnlinkFails))
    {
      r := Sentinel();
      var file := disk.CreateTemp(f.setup.inputCreateFails);
      var tempInput: Option<nat> := None;
      var tempOutput: Option<nat> := None;
      if file.Some? && !f.setup.inputWriteFails {
        tempInput := file;
        tempOutput := disk.CreateTemp(f.setup.outputCreateFails);
        if tempOutput.Some? {
          r := InvokeAndRead(smiles, tool, tempOutput.value, disk);
        }
      }
      Cleanup(tempInput, tempOutput, f.cleanup, disk);
      created, input, output := file, tempInput, tempOutput;
    }

    /** predict: one predict_single call per molecule, in input order. Every result is the
        Prediction for its own molecule, no file present before is removed, and when no
        deletion fails no temporary file is left behind. */
    method Predict(smiles: seq<string>, tools: nat -> Tool, faults: nat -> Faults, disk: Disk)
      returns (rs: seq<seq<Value>>)
      requires disk.Valid()
      modifies disk
      ensures disk.Valid()
      ensures PredictedInOrder(smiles, rs, modelsPath, tools, faults)
      ensures forall i :: 0 <= i < |rs| ==> |rs[i]| >= Width
      ensures old(disk.live) <= disk.live
      ensures CleanFor(faults, |smiles|) ==> disk.live == old(disk.live)
    {
      rs := [];
      var i := 0;
      while i < |smiles|
        invariant 0 <= i <= |smiles|
        invariant disk.Valid()
        invariant PredictedInOrder(smiles[..i], rs, modelsPath, tools, faults)
        invariant old(disk.live) <= disk.live
        invariant CleanFor(faults, i) ==> disk.live == old(disk.live)
      {
        ghost var input, output;
        var r;
        r, input, output := PredictSingle(smiles[i], tools(i), faults(i), disk);
        PredictedInOrderExtend(smiles, i, rs, r, modelsPath, tools, faults);
        CleanForExtend(faults, i);
        rs := rs + [r];
        i := i + 1;
      }
      assert smiles[..i] == smiles;
    }
  }

  /** A write failure in the as-written predict_single leaves one temporary file on a
      disk that started empty, although no deletion failed. */
  method InputLeakWitness() returns (leftover: set<nat>)
    ensures |leftover| == 1
  {
    var disk := new Disk();
    var p := new ChempropPredictor("model", {"model"});
    var writeFails := Faults(SetupFaults(false, true, false), CleanupFaults(false, false));
    ghost var created, input, output;
    var r;
    r, created, input, output := p.PredictSingleAsWritten("C", (m, s) => OutputEmpty, writeFails, disk);
    leftover := disk.live;
  }

  /** The same call to the corrected predict_single leaves nothing behind. */
  method InputCleanedWitness() returns (leftover: set<nat>)
    ensures leftover == {}
  {
    var disk := new Disk();
    var p := new ChempropPredictor("model", {"model"});
    var writeFails := Faults(SetupFaults(false, true, false), CleanupFaults(false, false));
    ghost var input, output;
    var r;
    r, input, output := p.PredictSingle("C", (m, s) => OutputEmpty, writeFails, disk);
    leftover := disk.live;
  }
}
