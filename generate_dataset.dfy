/**
 * The resumable trial loop of `run_and_update`
 * (FY21_Q3/generate_dataset.py:56-156): decode the progress recorded in the
 * dataset, then for every remaining trial write the inputs into Aspen and the
 * calculator, run both, read the output and checkpoint the whole workbook.
 *
 * The functions below give the calls the loop makes and the values it
 * records, as a function of its inputs; the methods are the loop itself,
 * proved to make exactly those calls.
 */
module GenerateDataset {
  import opened Strings
  import opened Dataset
  import opened Tools

  /** The calculator macro run after loading each snapshot. */
  const Macro: string := "solvedcfror"

  /** What a run fixes before its first trial. */
  datatype Setup = Setup(
    table: seq<InputRow>,      // the "Inputs" sheet, re-written unchanged at each checkpoint
    infos: seq<InputInfo>,     // the same rows with their values split
    outputName: string,
    outputLocation: string,
    tmpDir: string)

  /** The calls of one pass over the inputs and the error that cut it short, if any. */
  datatype Pass = Pass(calls: seq<Call>, failure: Option<Error>)

  /** The calls made so far, the output values so far and the error that stopped the run, if any. */
  datatype Progress = Progress(calls: seq<Call>, values: seq<Token>, failure: Option<Error>)

  predicate IsAspenKind(kind: string)
  {
    kind == "bkp" || kind == "bkp_fortran"
  }

  predicate IsCalculatorKind(kind: string)
  {
    kind == "xlsm"
  }

  /**
   * The Aspen pass of trial `i` (lines 108-116): every "bkp" input is written
   * with the plain write, every "bkp_fortran" input with the Fortran write,
   * in table order; other inputs are skipped.
   */
  function AspenPass(infos: seq<InputInfo>, i: nat): Pass
    decreases |infos|
  {
    if infos == [] then Pass([], None)
    else
      var p := AspenPass(infos[..|infos| - 1], i);
      var x := infos[|infos| - 1];
      if p.failure.Some? || !IsAspenKind(x.kind) then p
      else if i < |x.values| then
        Pass(p.calls + [AspenSetValue(x.location, x.values[i], x.kind == "bkp_fortran")], None)
      else Pass(p.calls, Some(NoValueForTrial(x.name, i)))
  }

  /**
   * The calculator pass of trial `i` (lines 125-131): every "xlsm" input is
   * written to the sheet and cell its location names, in table order; other
   * inputs are skipped.
   */
  function CalculatorPass(infos: seq<InputInfo>, i: nat): Pass
    decreases |infos|
  {
    if infos == [] then Pass([], None)
    else
      var p := CalculatorPass(infos[..|infos| - 1], i);
      var x := infos[|infos| - 1];
      if p.failure.Some? || !IsCalculatorKind(x.kind) then p
      else match SplitLocation(x.location)
        case Err(e) => Pass(p.calls, Some(e))
        case Ok(loc) =>
          if i < |x.values| then Pass(p.calls + [ExcelSetCell(x.values[i], loc.0, loc.1)], None)
          else Pass(p.calls, Some(NoValueForTrial(x.name, i)))
  }

  /** The Aspen pass only writes Aspen inputs. */
  lemma {:induction false} AspenPassWritesAspen(infos: seq<InputInfo>, i: nat)
    ensures forall c <- AspenPass(infos, i).calls :: c.AspenSetValue?
    decreases |infos|
  {
    if infos != [] {
      AspenPassWritesAspen(infos[..|infos| - 1], i);
    }
  }

  /** The calculator pass only writes calculator cells. */
  lemma {:induction false} CalculatorPassWritesCells(infos: seq<InputInfo>, i: nat)
    ensures forall c <- CalculatorPass(infos, i).calls :: c.ExcelSetCell?
    decreases |infos|
  {
    if infos != [] {
      CalculatorPassWritesCells(infos[..|infos| - 1], i);
    }
  }

  /** The workbook written after a trial: the inputs unchanged, the output values joined by commas. */
  function Checkpoint(s: Setup, values: seq<Token>): Store
  {
    Store(s.table, OutputRow(s.outputName, s.outputLocation, Text(Join(values, ','))))
  }

  /** Trial `i`, with `values` recorded before it (lines 105-151). */
  function Trial(s: Setup, respond: Respond, i: nat, values: seq<Token>): Progress
  {
    var aspen := AspenPass(s.infos, i);
    var snapshot := SnapshotPath(s.tmpDir, i);
    if aspen.failure.Some? then Progress(aspen.calls, values, aspen.failure)
    else
      var saved := aspen.calls + [AspenRunModel] + [AspenSaveModel(snapshot)];
      var written := CalculatorPass(s.infos, i);
      if written.failure.Some? then Progress(saved + written.calls, values, written.failure)
      else
        var ran := saved + written.calls + [ExcelLoadAspenModel(snapshot)] + [ExcelRunMacro(Macro)];
        match SplitLocation(s.outputLocation)
        case Err(e) => Progress(ran, values, Some(e))
        case Ok(loc) =>
          var recorded := values + [respond(snapshot, loc.0, loc.1)];
          Progress(ran + [ExcelGetCell(loc.0, loc.1)] + [WriteDataset(Checkpoint(s, recorded))], recorded, None)
  }

  /** Trials `lo .. hi-1` in increasing order, stopping at the first error (line 104). */
  function Trials(s: Setup, respond: Respond, lo: nat, hi: int, prior: seq<Token>): Progress
    decreases hi - lo
  {
    if hi <= lo then Progress([], prior, None)
    else
      var t := Trials(s, respond, lo, hi - 1, prior);
      if t.failure.Some? then t
      else
        var p := Trial(s, respond, hi - 1, t.values);
        Progress(t.calls + p.calls, p.values, p.failure)
  }

  /** The calls that open a run's sessions (lines 97-102). */
  function Opening(tmpDir: string, aspenFile: string, calculatorFile: string): seq<Call>
  {
    [Call.MakeDirs(tmpDir)] + [OpenAspen(aspenFile)] + [OpenExcel(calculatorFile)]
  }

  /** A whole call of `run_and_update` (lines 56-156). */
  function Run(table: seq<InputRow>, output: OutputRow, aspenFile: string, calculatorFile: string,
               nruns: int, outDir: string, respond: Respond): Progress
  {
    match DecodeValues(output.values)
    case Err(e) => Progress([], [], Some(e))
    case Ok(prior) =>
      if nruns - |prior| == 0 then Progress([], prior, None)
      else match DecodeInputs(table)
        case Err(e) => Progress([], prior, Some(e))
        case Ok(infos) =>
          var tmpDir := TmpDir(outDir);
          var s := Setup(table, infos, output.name, output.location, tmpDir);
          var t := Trials(s, respond, |prior|, nruns, prior);
          var started := Opening(tmpDir, aspenFile, calculatorFile) + t.calls;
          if t.failure.Some? then Progress(started, t.values, t.failure)
          else Progress(started + [AspenClose] + [ExcelClose], t.values, None)
  }

  /** The Aspen pass of lines 108-116. */
  method SetAspenInputs(aspen: Aspen, infos: seq<InputInfo>, i: nat) returns (failure: Option<Error>)
    modifies aspen.log
    ensures aspen.log.calls == old(aspen.log.calls) + AspenPass(infos, i).calls
    ensures failure == AspenPass(infos, i).failure
  {
    ghost var start := aspen.log.calls;
    for k := 0 to |infos|
      invariant AspenPass(infos[..k], i).failure.None?
      invariant aspen.log.calls == start + AspenPass(infos[..k], i).calls
    {
      var x := infos[k];
      assert infos[..k + 1][..k] == infos[..k];
      if x.kind == "bkp" || x.kind == "bkp_fortran" {
        if i >= |x.values| {
          assert infos[..k + 1] == infos[..k] + [x];
          PassStopsAtFailure(infos, k + 1, i);
          return Some(NoValueForTrial(x.name, i));
        }
        aspen.SetValue(x.location, x.values[i], x.kind == "bkp_fortran");
        AppendAssociative(start, AspenPass(infos[..k], i).calls, [AspenSetValue(x.location, x.values[i], x.kind == "bkp_fortran")]);
      }
    }
    assert infos[..|infos|] == infos;
    return None;
  }

  /** The calculator pass of lines 125-131. */
  method SetCalculatorInputs(calculator: Excel, infos: seq<InputInfo>, i: nat) returns (failure: Option<Error>)
    modifies calculator.log
    ensures calculator.log.calls == old(calculator.log.calls) + CalculatorPass(infos, i).calls
    ensures failure == CalculatorPass(infos, i).failure
  {
    ghost var start := calculator.log.calls;
    for k := 0 to |infos|
      invariant CalculatorPass(infos[..k], i).failure.None?
      invariant calculator.log.calls == start + CalculatorPass(infos[..k], i).calls
    {
      var x := infos[k];
      assert infos[..k + 1][..k] == infos[..k];
      if x.kind == "xlsm" {
        var loc := SplitLocation(x.location);
        if loc.Err? {
          PassStopsAtFailure(infos, k + 1, i);
          return Some(loc.error);
        }
        if i >= |x.values| {
          PassStopsAtFailure(infos, k + 1, i);
          return Some(NoValueForTrial(x.name, i));
        }
        calculator.SetCell(x.values[i], loc.value.0, loc.value.1);
        AppendAssociative(start, CalculatorPass(infos[..k], i).calls, [ExcelSetCell(x.values[i], loc.value.0, loc.value.1)]);
      }
    }
    assert infos[..|infos|] == infos;
    return None;
  }

  /** Once a pass has failed on a prefix, the rest of the inputs change neither its calls nor its error. */
  lemma {:induction false} PassStopsAtFailure(infos: seq<InputInfo>, k: nat, i: nat)
    requires k <= |infos|
    ensures AspenPass(infos[..k], i).failure.Some? ==> AspenPass(infos, i) == AspenPass(infos[..k], i)
    ensures CalculatorPass(infos[..k], i).failure.Some? ==> CalculatorPass(infos, i) == CalculatorPass(infos[..k], i)
    decreases |infos| - k
  {
    if k < |infos| {
      assert infos[..k + 1][..k] == infos[..k];
      PassStopsAtFailure(infos, k + 1, i);
    } else {
      assert infos[..k] == infos;
    }
  }

  /** One trial: lines 105-151. */
  method RunTrial(s: Setup, aspen: Aspen, calculator: Excel, data: DatasetFile, i: nat, values: seq<Token>)
    returns (recorded: seq<Token>, failure: Option<Error>)
    requires aspen.log == data.log && calculator.log == data.log
    modifies data.log, data, calculator
    ensures var p := Trial(s, calculator.respond, i, values);
      && data.log.calls == old(data.log.calls) + p.calls
      && recorded == p.values
      && failure == p.failure
      && data.store == LatestStore(old(data.store), p.calls)
  {
    ghost var start := data.log.calls;
    ghost var initial := data.store;
    recorded := values;
    failure := SetAspenInputs(aspen, s.infos, i);
    ghost var done := AspenPass(s.infos, i).calls;
    AspenPassWritesAspen(s.infos, i);
    if failure.Some? {
      LatestStoreUnwritten(initial, done);
      return;
    }
    aspen.RunModel();
    AppendAssociative(start, done, [AspenRunModel]);
    done := done + [AspenRunModel];
    var tmpFile := SnapshotPath(s.tmpDir, i);
    aspen.SaveModel(tmpFile);
    AppendAssociative(start, done, [AspenSaveModel(tmpFile)]);
    done := done + [AspenSaveModel(tmpFile)];
    failure := SetCalculatorInputs(calculator, s.infos, i);
    AppendAssociative(start, done, CalculatorPass(s.infos, i).calls);
    done := done + CalculatorPass(s.infos, i).calls;
    CalculatorPassWritesCells(s.infos, i);
    if failure.Some? {
      LatestStoreUnwritten(initial, done);
      return;
    }
    calculator.LoadAspenModel(tmpFile);
    AppendAssociative(start, done, [ExcelLoadAspenModel(tmpFile)]);
    done := done + [ExcelLoadAspenModel(tmpFile)];
    calculator.RunMacro(Macro);
    AppendAssociative(start, done, [ExcelRunMacro(Macro)]);
    done := done + [ExcelRunMacro(Macro)];
    var loc := SplitLocation(s.outputLocation);
    if loc.Err? {
      failure := Some(loc.error);
      LatestStoreUnwritten(initial, done);
      return;
    }
    var output := calculator.GetCell(loc.value.0, loc.value.1);
    AppendAssociative(start, done, [ExcelGetCell(loc.value.0, loc.value.1)]);
    done := done + [ExcelGetCell(loc.value.0, loc.value.1)];
    recorded := values + [output];
    data.Write(Checkpoint(s, recorded));
    AppendAssociative(start, done, [WriteDataset(Checkpoint(s, recorded))]);
  }

  /** The loop of line 104: trials `lo .. hi-1` in increasing order, stopping at the first error. */
  method RunTrials(s: Setup, aspen: Aspen, calculator: Excel, data: DatasetFile, lo: nat, hi: int, prior: seq<Token>)
    returns (values: seq<Token>, failure: Option<Error>)
    requires aspen.log == data.log && calculator.log == data.log
    modifies data.log, data, calculator
    ensures var t := Trials(s, calculator.respond, lo, hi, prior);
      && data.log.calls == old(data.log.calls) + t.calls
      && values == t.values
      && failure == t.failure
      && data.store == LatestStore(old(data.store), t.calls)
  {
    ghost var respond := calculator.respond;
    ghost var start := data.log.calls;
    ghost var initial := data.store;
    values := prior;
    var i := lo;
    while i < hi
      invariant lo <= i && (lo <= hi ==> i <= hi)
      invariant lo > hi ==> i == lo
      invariant Trials(s, respond, lo, i, prior).failure.None?
      invariant values == Trials(s, respond, lo, i, prior).values
      invariant data.log.calls == start + Trials(s, respond, lo, i, prior).calls
      invariant data.store == LatestStore(initial, Trials(s, respond, lo, i, prior).calls)
      decreases hi - i
    {
      ghost var t := Trials(s, respond, lo, i, prior);
      ghost var p := Trial(s, respond, i, t.values);
      assert Trials(s, respond, lo, i + 1, prior) == Progress(t.calls + p.calls, p.values, p.failure);
      LatestStoreAppend(initial, t.calls, p.calls);
      AppendAssociative(start, t.calls, p.calls);
      var trialFailure;
      values, trialFailure := RunTrial(s, aspen, calculator, data, i, values);
      if trialFailure.Some? {
        TrialsStopAtFailure(s, respond, lo, i + 1, hi, prior);
        return values, trialFailure;
      }
      i := i + 1;
    }
    return values, None;
  }

  /** Once a run of trials has failed, later trials change neither its calls nor its result. */
  lemma {:induction false} TrialsStopAtFailure(s: Setup, respond: Respond, lo: nat, k: int, hi: int, prior: seq<Token>)
    requires lo <= k <= hi
    requires Trials(s, respond, lo, k, prior).failure.Some?
    ensures Trials(s, respond, lo, hi, prior) == Trials(s, respond, lo, k, prior)
    decreases hi - k
  {
    if k < hi {
      TrialsStopAtFailure(s, respond, lo, k, hi - 1, prior);
    }
  }

  /**
   * `run_and_update` (lines 56-156), with the dataset file, the collaborators'
   * call log and the calculator's answers as the environment.
   */
  method RunAndUpdate(data: DatasetFile, table: seq<InputRow>, output: OutputRow,
                      aspenFile: string, calculatorFile: string, nruns: int, outDir: string,
                      respond: Respond)
    returns (failure: Option<Error>)
    modifies data, data.log
    ensures var run := Run(table, output, aspenFile, calculatorFile, nruns, outDir, respond);
      && data.log.calls == old(data.log.calls) + run.calls
      && data.store == LatestStore(old(data.store), run.calls)
      && failure == run.failure
  {
    ghost var run := Run(table, output, aspenFile, calculatorFile, nruns, outDir, respond);
    var log := data.log;
    var decoded := DecodeValues(output.values);
    if decoded.Err? {
      assert run == Progress([], [], Some(decoded.error));
      return Some(decoded.error);
    }
    var values := decoded.value;
    var completed := |values|;
    var left := nruns - completed;
    if left == 0 {
      assert run == Progress([], values, None);
      return None;
    }
    var inputs := RemakeInputs(table);
    if inputs.Err? {
      assert run == Progress([], values, Some(inputs.error));
      return Some(inputs.error);
    }
    var tmpDir := TmpDir(outDir);
    var s := Setup(table, inputs.value, output.name, output.location, tmpDir);
    ghost var start := log.calls;
    ghost var t := Trials(s, respond, completed, nruns, values);
    MakeDirectories(log, tmpDir);
    var aspen := new Aspen(aspenFile, log);
    AppendAssociative(start, [Call.MakeDirs(tmpDir)], [OpenAspen(aspenFile)]);
    var calculator := new Excel(calculatorFile, log, respond);
    ghost var done := Opening(tmpDir, aspenFile, calculatorFile);
    AppendAssociative(start, [Call.MakeDirs(tmpDir)] + [OpenAspen(aspenFile)], [OpenExcel(calculatorFile)]);
    LatestStoreUnwritten(old(data.store), done);
    values, failure := RunTrials(s, aspen, calculator, data, completed, nruns, values);
    LatestStoreAppend(old(data.store), done, t.calls);
    AppendAssociative(start, done, t.calls);
    done := done + t.calls;
    if failure.Some? {
      assert run == Progress(done, t.values, t.failure);
      return;
    }
    aspen.Close();
    AppendAssociative(start, done, [AspenClose]);
    LatestStoreAppend(old(data.store), done, [AspenClose]);
    done := done + [AspenClose];
    calculator.Close();
    AppendAssociative(start, done, [ExcelClose]);
    LatestStoreAppend(old(data.store), done, [ExcelClose]);
    done := done + [ExcelClose];
    assert run == Progress(done, t.values, None);
  }
}


