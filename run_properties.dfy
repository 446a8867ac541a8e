/**
 * What `run_and_update` promises, proved about the model of its calls
 * (FY21_Q3/generate_dataset.py:56-156): input routing by type tag, the fixed
 * order of calls within a trial, the trials visited, the snapshot files, the
 * checkpoints and what a later run resumes from.
 */
module RunProperties {
  import opened Strings
  import opened Dataset
  import opened Tools
  import opened GenerateDataset

  // ---------------------------------------------------------------------------
  // Routing of inputs by type tag (lines 108-131)
  // ---------------------------------------------------------------------------

  /** What one input contributes to the Aspen pass when it has a value for trial `i`. */
  function AspenWrite(x: InputInfo, i: nat): seq<Call>
  {
    if i >= |x.values| then []
    else if x.kind == "bkp" then [AspenSetValue(x.location, x.values[i], false)]
    else if x.kind == "bkp_fortran" then [AspenSetValue(x.location, x.values[i], true)]
    else []
  }

  /** The Aspen writes of trial `i`, input by input. */
  function AspenWrites(infos: seq<InputInfo>, i: nat): seq<Call>
    decreases |infos|
  {
    if infos == [] then [] else AspenWrite(infos[0], i) + AspenWrites(infos[1..], i)
  }

  /** What one input contributes to the calculator pass when its location and value are usable. */
  function CellWrite(x: InputInfo, i: nat): seq<Call>
  {
    if x.kind != "xlsm" || i >= |x.values| then []
    else match SplitLocation(x.location)
      case Ok(loc) => [ExcelSetCell(x.values[i], loc.0, loc.1)]
      case Err(_) => []
  }

  /** The calculator writes of trial `i`, input by input. */
  function CellWrites(infos: seq<InputInfo>, i: nat): seq<Call>
    decreases |infos|
  {
    if infos == [] then [] else CellWrite(infos[0], i) + CellWrites(infos[1..], i)
  }

  /** The Aspen pass can write input `x` in trial `i`. */
  predicate AspenReady(x: InputInfo, i: nat)
  {
    IsAspenKind(x.kind) ==> i < |x.values|
  }

  /** The calculator pass can write input `x` in trial `i`. */
  predicate CellReady(x: InputInfo, i: nat)
  {
    IsCalculatorKind(x.kind) ==> SplitLocation(x.location).Ok? && i < |x.values|
  }

  lemma {:induction false} AspenWritesSnoc(a: seq<InputInfo>, x: InputInfo, i: nat)
    ensures AspenWrites(a + [x], i) == AspenWrites(a, i) + AspenWrite(x, i)
    decreases |a|
  {
    if a == [] {
      assert ([] + [x])[1..] == [];
    } else {
      assert (a + [x])[0] == a[0];
      assert (a + [x])[1..] == a[1..] + [x];
      AspenWritesSnoc(a[1..], x, i);
      AppendAssociative(AspenWrite(a[0], i), AspenWrites(a[1..], i), AspenWrite(x, i));
    }
  }

  lemma {:induction false} CellWritesSnoc(a: seq<InputInfo>, x: InputInfo, i: nat)
    ensures CellWrites(a + [x], i) == CellWrites(a, i) + CellWrite(x, i)
    decreases |a|
  {
    if a == [] {
      assert ([] + [x])[1..] == [];
    } else {
      assert (a + [x])[0] == a[0];
      assert (a + [x])[1..] == a[1..] + [x];
      CellWritesSnoc(a[1..], x, i);
      AppendAssociative(CellWrite(a[0], i), CellWrites(a[1..], i), CellWrite(x, i));
    }
  }

  /**
   * The Aspen pass of trial `i` fails exactly when some "bkp" or "bkp_fortran"
   * input has no value for trial `i`; otherwise it writes every such input, in
   * table order, with the Fortran flag set exactly for "bkp_fortran".
   */
  lemma {:induction false} AspenPassRouting(infos: seq<InputInfo>, i: nat)
    ensures AspenPass(infos, i).failure.None? <==> forall x <- infos :: AspenReady(x, i)
    ensures AspenPass(infos, i).failure.None? ==> AspenPass(infos, i).calls == AspenWrites(infos, i)
    ensures AspenPass(infos, i).failure.Some? ==>
      exists x <- infos :: !AspenReady(x, i) && AspenPass(infos, i).failure == Some(NoValueForTrial(x.name, i))
    decreases |infos|
  {
    if infos != [] {
      var front, x := infos[..|infos| - 1], infos[|infos| - 1];
      assert infos == front + [x];
      AspenPassRouting(front, i);
      AspenWritesSnoc(front, x, i);
      assert (forall y <- infos :: AspenReady(y, i)) <==>
             (forall y <- front :: AspenReady(y, i)) && AspenReady(x, i);
      var pass := AspenPass(infos, i);
      if AspenPass(front, i).failure.Some? {
        var y :| y in front && !AspenReady(y, i) && pass.failure == Some(NoValueForTrial(y.name, i));
        assert y in infos;
      } else if pass.failure.Some? {
        assert x in infos && !AspenReady(x, i);
      }
    }
  }

  /**
   * The calculator pass of trial `i` fails exactly when some "xlsm" input has a
   * location without exactly one `!` or no value for trial `i`; otherwise it
   * writes every such input to the sheet and cell of its location, in order.
   */
  lemma {:induction false} CalculatorPassRouting(infos: seq<InputInfo>, i: nat)
    ensures CalculatorPass(infos, i).failure.None? <==> forall x <- infos :: CellReady(x, i)
    ensures CalculatorPass(infos, i).failure.None? ==> CalculatorPass(infos, i).calls == CellWrites(infos, i)
    ensures CalculatorPass(infos, i).failure.Some? ==>
      exists x <- infos :: !CellReady(x, i) &&
        (CalculatorPass(infos, i).failure == Some(MalformedLocation(x.location)) ||
         CalculatorPass(infos, i).failure == Some(NoValueForTrial(x.name, i)))
    decreases |infos|
  {
    if infos != [] {
      var front, x := infos[..|infos| - 1], infos[|infos| - 1];
      assert infos == front + [x];
      CalculatorPassRouting(front, i);
      var before := CalculatorPass(front, i);
      var pass := CalculatorPass(infos, i);
      assert (forall y <- infos :: CellReady(y, i)) <==>
             (forall y <- front :: CellReady(y, i)) && CellReady(x, i);
      if before.failure.Some? {
        assert pass == before;
        var y :| y in front && !CellReady(y, i) &&
          (before.failure == Some(MalformedLocation(y.location)) || before.failure == Some(NoValueForTrial(y.name, i)));
        assert y in infos;
      } else if !CellReady(x, i) {
        assert pass.failure == Some(MalformedLocation(x.location)) || pass.failure == Some(NoValueForTrial(x.name, i));
        assert x in infos;
      } else {
        CellWritesSnoc(front, x, i);
        assert pass.calls == before.calls + CellWrite(x, i);
      }
    }
  }

  /**
   * An input whose type is none of "bkp", "bkp_fortran" and "xlsm" is never
   * written to either tool and never causes an error: removing it changes
   * neither pass.
   */
  lemma {:induction false} UnroutedInputIgnored(a: seq<InputInfo>, x: InputInfo, b: seq<InputInfo>, i: nat)
    requires !IsAspenKind(x.kind) && !IsCalculatorKind(x.kind)
    ensures AspenPass(a + [x] + b, i) == AspenPass(a + b, i)
    ensures CalculatorPass(a + [x] + b, i) == CalculatorPass(a + b, i)
    decreases |b|
  {
    if b == [] {
      assert (a + [x] + b)[..|a|] == a;
      assert a + b == a;
    } else {
      var front := b[..|b| - 1];
      assert (a + [x] + b)[..|a + [x] + b| - 1] == a + [x] + front;
      assert (a + b)[..|a + b| - 1] == a + front;
      UnroutedInputIgnored(a, x, front, i);
    }
  }

  // ---------------------------------------------------------------------------
  // One trial (lines 105-151)
  // ---------------------------------------------------------------------------

  /** The value trial `k` records: the output cell read after loading trial `k`'s snapshot. */
  function Reading(s: Setup, respond: Respond, k: nat): Token
    requires SplitLocation(s.outputLocation).Ok?
  {
    var loc := SplitLocation(s.outputLocation).value;
    respond(SnapshotPath(s.tmpDir, k), loc.0, loc.1)
  }

  /**
   * A trial either records exactly one value or fails recording none. It
   * succeeds exactly when both passes can write every routed input and the
   * output location names a sheet and a cell; then its calls are, in this
   * order: the Aspen writes, run, save to the trial's snapshot, the calculator
   * writes, load that same snapshot, run macro "solvedcfror", read the output
   * cell, rewrite the workbook with the values so far.
   */
  lemma TrialCallOrder(s: Setup, respond: Respond, i: nat, values: seq<Token>)
    ensures var p := Trial(s, respond, i, values);
      p.failure.None? <==>
        (forall x <- s.infos :: AspenReady(x, i) && CellReady(x, i)) && SplitLocation(s.outputLocation).Ok?
    ensures var p := Trial(s, respond, i, values);
      p.failure.Some? ==> p.values == values
    ensures var p := Trial(s, respond, i, values);
      p.failure.None? ==>
        var snapshot := SnapshotPath(s.tmpDir, i);
        var loc := SplitLocation(s.outputLocation).value;
        && p.values == values + [Reading(s, respond, i)]
        && p.calls == AspenWrites(s.infos, i)
                      + [AspenRunModel, AspenSaveModel(snapshot)]
                      + CellWrites(s.infos, i)
                      + [ExcelLoadAspenModel(snapshot), ExcelRunMacro(Macro), ExcelGetCell(loc.0, loc.1),
                         WriteDataset(Checkpoint(s, p.values))]
  {
    var p := Trial(s, respond, i, values);
    AspenPassRouting(s.infos, i);
    CalculatorPassRouting(s.infos, i);
    assert (forall x <- s.infos :: AspenReady(x, i) && CellReady(x, i)) <==>
           (forall x <- s.infos :: AspenReady(x, i)) && (forall x <- s.infos :: CellReady(x, i));
    if p.failure.None? {
      var snapshot := SnapshotPath(s.tmpDir, i);
      var loc := SplitLocation(s.outputLocation).value;
      TrialShape(AspenWrites(s.infos, i), CellWrites(s.infos, i), snapshot, loc.0, loc.1, Checkpoint(s, p.values));
    }
  }

  /** The calls of a successful trial, regrouped. */
  lemma TrialShape(a: seq<Call>, w: seq<Call>, snapshot: string, sheet: string, cell: string, store: Store)
    ensures a + [AspenRunModel] + [AspenSaveModel(snapshot)] + w + [ExcelLoadAspenModel(snapshot)]
              + [ExcelRunMacro(Macro)] + [ExcelGetCell(sheet, cell)] + [WriteDataset(store)]
         == a + [AspenRunModel, AspenSaveModel(snapshot)] + w
              + [ExcelLoadAspenModel(snapshot), ExcelRunMacro(Macro), ExcelGetCell(sheet, cell), WriteDataset(store)]
  {
  }

  // ---------------------------------------------------------------------------
  // What a sequence of calls shows
  // ---------------------------------------------------------------------------

  /** The snapshot files Aspen saved, in order. */
  function Snapshots(calls: seq<Call>): seq<string>
    decreases |calls|
  {
    if calls == [] then []
    else
      var c := calls[|calls| - 1];
      Snapshots(calls[..|calls| - 1]) + (if c.AspenSaveModel? then [c.path] else [])
  }

  /** The workbooks written, in order. */
  function Checkpoints(calls: seq<Call>): seq<Store>
    decreases |calls|
  {
    if calls == [] then []
    else
      var c := calls[|calls| - 1];
      Checkpoints(calls[..|calls| - 1]) + (if c.WriteDataset? then [c.store] else [])
  }

  lemma {:induction false} ObservationsAppend(a: seq<Call>, b: seq<Call>)
    ensures Snapshots(a + b) == Snapshots(a) + Snapshots(b)
    ensures Checkpoints(a + b) == Checkpoints(a) + Checkpoints(b)
    decreases |b|
  {
    if b == [] {
      assert a + b == a;
    } else {
      assert (a + b)[..|a + b| - 1] == a + b[..|b| - 1];
      ObservationsAppend(a, b[..|b| - 1]);
    }
  }

  lemma {:induction false} ObservationsOfInputWrites(calls: seq<Call>)
    requires forall c <- calls :: c.AspenSetValue? || c.ExcelSetCell?
    ensures Snapshots(calls) == [] && Checkpoints(calls) == []
    decreases |calls|
  {
    if calls != [] {
      var front := calls[..|calls| - 1];
      var last := calls[|calls| - 1];
      assert calls == front + [last] && last in calls;
      assert forall c <- front :: c in calls;
      ObservationsOfInputWrites(front);
      ObservationsSnoc(front, last);
    }
  }

  lemma ObservationsSnoc(calls: seq<Call>, c: Call)
    ensures Snapshots(calls + [c]) == Snapshots(calls) + (if c.AspenSaveModel? then [c.path] else [])
    ensures Checkpoints(calls + [c]) == Checkpoints(calls) + (if c.WriteDataset? then [c.store] else [])
  {
    assert (calls + [c])[..|calls|] == calls;
  }

  /** The calls of a trial up to the snapshot: input writes, run, save. */
  lemma SavedObservations(a: seq<Call>, snapshot: string)
    requires forall c <- a :: c.AspenSetValue? || c.ExcelSetCell?
    ensures Snapshots(a + [AspenRunModel] + [AspenSaveModel(snapshot)]) == [snapshot]
    ensures Checkpoints(a + [AspenRunModel] + [AspenSaveModel(snapshot)]) == []
  {
    ObservationsOfInputWrites(a);
    ObservationsSnoc(a, AspenRunModel);
    ObservationsSnoc(a + [AspenRunModel], AspenSaveModel(snapshot));
  }

  /** The calls of a successful trial after the snapshot: calculator writes, load, macro, read, checkpoint. */
  lemma RecordedObservations(saved: seq<Call>, w: seq<Call>, snapshot: string, sheet: string, cell: string, store: Store)
    requires forall c <- w :: c.AspenSetValue? || c.ExcelSetCell?
    ensures var calls := saved + w + [ExcelLoadAspenModel(snapshot)] + [ExcelRunMacro(Macro)]
                         + [ExcelGetCell(sheet, cell)] + [WriteDataset(store)];
      && Snapshots(calls) == Snapshots(saved)
      && Checkpoints(calls) == Checkpoints(saved) + [store]
  {
    ObservationsOfInputWrites(w);
    ObservationsAppend(saved, w);
    var loaded := saved + w + [ExcelLoadAspenModel(snapshot)];
    var macro := loaded + [ExcelRunMacro(Macro)];
    var read := macro + [ExcelGetCell(sheet, cell)];
    ObservationsSnoc(saved + w, ExcelLoadAspenModel(snapshot));
    ObservationsSnoc(loaded, ExcelRunMacro(Macro));
    ObservationsSnoc(macro, ExcelGetCell(sheet, cell));
    ObservationsSnoc(read, WriteDataset(store));
  }

  /** A successful trial saves its own snapshot and writes one workbook, holding the values it recorded. */
  lemma TrialObservations(s: Setup, respond: Respond, i: nat, values: seq<Token>)
    requires Trial(s, respond, i, values).failure.None?
    ensures Snapshots(Trial(s, respond, i, values).calls) == [SnapshotPath(s.tmpDir, i)]
    ensures Checkpoints(Trial(s, respond, i, values).calls) == [Checkpoint(s, Trial(s, respond, i, values).values)]
    ensures var p := Trial(s, respond, i, values);
      && |p.values| == |values| + 1 && p.values[..|values|] == values
      && |p.calls| > 0 && p.calls[|p.calls| - 1] == WriteDataset(Checkpoint(s, p.values))
      && SplitLocation(s.outputLocation).Ok? && p.values == values + [Reading(s, respond, i)]
  {
    var p := Trial(s, respond, i, values);
    var snapshot := SnapshotPath(s.tmpDir, i);
    var loc := SplitLocation(s.outputLocation).value;
    var saved := AspenPass(s.infos, i).calls + [AspenRunModel] + [AspenSaveModel(snapshot)];
    AspenPassWritesAspen(s.infos, i);
    CalculatorPassWritesCells(s.infos, i);
    SavedObservations(AspenPass(s.infos, i).calls, snapshot);
    RecordedObservations(saved, CalculatorPass(s.infos, i).calls, snapshot, loc.0, loc.1, Checkpoint(s, p.values));
    assert p.values[..|values|] == values;
  }

  /** A failed trial records no value and writes no workbook. */
  lemma TrialFailureWritesNothing(s: Setup, respond: Respond, i: nat, values: seq<Token>)
    requires Trial(s, respond, i, values).failure.Some?
    ensures Trial(s, respond, i, values).values == values
    ensures forall c <- Trial(s, respond, i, values).calls :: !c.WriteDataset?
  {
    AspenPassWritesAspen(s.infos, i);
    CalculatorPassWritesCells(s.infos, i);
  }

  // ---------------------------------------------------------------------------
  // The trial loop (line 104)
  // ---------------------------------------------------------------------------

  /** The snapshot files of trials `lo .. hi-1`, in order. */
  function SnapshotRange(tmpDir: string, lo: nat, hi: int): (r: seq<string>)
    ensures |r| == if hi <= lo then 0 else hi - lo
    ensures forall j | 0 <= j < |r| :: r[j] == SnapshotPath(tmpDir, lo + j)
    decreases hi - lo
  {
    if hi <= lo then [] else SnapshotRange(tmpDir, lo, hi - 1) + [SnapshotPath(tmpDir, hi - 1)]
  }

  /** The readings of trials `lo .. hi-1`, in order. */
  function Readings(s: Setup, respond: Respond, lo: nat, hi: int): (r: seq<Token>)
    requires SplitLocation(s.outputLocation).Ok?
    ensures |r| == if hi <= lo then 0 else hi - lo
    ensures forall j | 0 <= j < |r| :: r[j] == Reading(s, respond, lo + j)
    decreases hi - lo
  {
    if hi <= lo then [] else Readings(s, respond, lo, hi - 1) + [Reading(s, respond, hi - 1)]
  }

  /**
   * Each trial appends at most one value and the values recorded before stay an
   * unchanged prefix; when every trial succeeds, the values recorded are those
   * before followed by the reading of each trial's own snapshot, in trial order.
   */
  lemma {:induction false} TrialsValues(s: Setup, respond: Respond, lo: nat, hi: int, prior: seq<Token>)
    ensures var t := Trials(s, respond, lo, hi, prior);
      |prior| <= |t.values| <= |prior| + (if hi <= lo then 0 else hi - lo) && t.values[..|prior|] == prior
    ensures var t := Trials(s, respond, lo, hi, prior);
      t.failure.None? ==> |t.values| == |prior| + (if hi <= lo then 0 else hi - lo)
    ensures var t := Trials(s, respond, lo, hi, prior);
      t.failure.None? && lo < hi ==>
        SplitLocation(s.outputLocation).Ok? && t.values == prior + Readings(s, respond, lo, hi)
    decreases hi - lo
  {
    if lo < hi {
      var t := Trials(s, respond, lo, hi - 1, prior);
      TrialsValues(s, respond, lo, hi - 1, prior);
      if t.failure.None? {
        var p := Trial(s, respond, hi - 1, t.values);
        if p.failure.None? {
          assert SplitLocation(s.outputLocation).Ok? && p.values == t.values + [Reading(s, respond, hi - 1)] by {
            TrialObservations(s, respond, hi - 1, t.values);
          }
          if lo < hi - 1 {
            assert prior + Readings(s, respond, lo, hi - 1) + [Reading(s, respond, hi - 1)]
                == prior + (Readings(s, respond, lo, hi - 1) + [Reading(s, respond, hi - 1)]);
          } else {
            assert Readings(s, respond, lo, hi) == [Reading(s, respond, hi - 1)];
          }
          assert p.values[..|prior|] == t.values[..|prior|];
        } else {
          TrialFailureWritesNothing(s, respond, hi - 1, t.values);
        }
      }
    }
  }

  /** A successful run of trials `lo .. hi-1` saves exactly their snapshots, in increasing trial order. */
  lemma {:induction false} TrialsSnapshots(s: Setup, respond: Respond, lo: nat, hi: int, prior: seq<Token>)
    requires Trials(s, respond, lo, hi, prior).failure.None?
    ensures Snapshots(Trials(s, respond, lo, hi, prior).calls) == SnapshotRange(s.tmpDir, lo, hi)
    decreases hi - lo
  {
    if lo < hi {
      var t := Trials(s, respond, lo, hi - 1, prior);
      TrialsSnapshots(s, respond, lo, hi - 1, prior);
      TrialObservations(s, respond, hi - 1, t.values);
      ObservationsAppend(t.calls, Trial(s, respond, hi - 1, t.values).calls);
    }
  }

  /**
   * The workbooks written while `values` grew from its first `start` values to
   * all of them: one per value added, each holding the values up to it.
   */
  function CheckpointsFrom(s: Setup, values: seq<Token>, start: nat): (r: seq<Store>)
    ensures |r| == if |values| <= start then 0 else |values| - start
    ensures forall j | 0 <= j < |r| ::
      start + j + 1 <= |values| && r[j] == Checkpoint(s, values[..start + j + 1])
    decreases |values|
  {
    if |values| <= start then []
    else
      var front := values[..|values| - 1];
      assert forall n | 0 <= n <= |front| :: front[..n] == values[..n];
      assert values[..|values|] == values;
      CheckpointsFrom(s, front, start) + [Checkpoint(s, values)]
  }

  /**
   * A successful run of trials `lo .. hi-1` writes one workbook per trial; the
   * `j`-th holds the input table unchanged and the first `|prior| + j + 1`
   * values.
   */
  lemma {:induction false} TrialsCheckpoints(s: Setup, respond: Respond, lo: nat, hi: int, prior: seq<Token>)
    requires Trials(s, respond, lo, hi, prior).failure.None?
    ensures var t := Trials(s, respond, lo, hi, prior);
      Checkpoints(t.calls) == CheckpointsFrom(s, t.values, |prior|)
    decreases hi - lo
  {
    if lo < hi {
      var t := Trials(s, respond, lo, hi - 1, prior);
      var p := Trial(s, respond, hi - 1, t.values);
      TrialsCheckpoints(s, respond, lo, hi - 1, prior);
      TrialsValues(s, respond, lo, hi - 1, prior);
      TrialObservations(s, respond, hi - 1, t.values);
      ObservationsAppend(t.calls, p.calls);
      assert p.values[..|p.values| - 1] == t.values;
    }
  }

  /** The workbook after trials `lo .. hi-1`, failing or not: the checkpoint of the values they recorded, if any. */
  lemma {:induction false} TrialsLatestStore(s: Setup, respond: Respond, lo: nat, hi: int, prior: seq<Token>, initial: Store)
    ensures var t := Trials(s, respond, lo, hi, prior);
      LatestStore(initial, t.calls) == if |t.values| == |prior| then initial else Checkpoint(s, t.values)
    decreases hi - lo
  {
    if lo < hi {
      var t := Trials(s, respond, lo, hi - 1, prior);
      TrialsLatestStore(s, respond, lo, hi - 1, prior, initial);
      if t.failure.None? {
        var p := Trial(s, respond, hi - 1, t.values);
        var before := LatestStore(initial, t.calls);
        assert Trials(s, respond, lo, hi, prior) == Progress(t.calls + p.calls, p.values, p.failure);
        assert |prior| <= |t.values| by {
          TrialsValues(s, respond, lo, hi - 1, prior);
        }
        LatestStoreAppend(initial, t.calls, p.calls);
        if p.failure.None? {
          assert LatestStore(before, p.calls) == Checkpoint(s, p.values) && |p.values| == |t.values| + 1 by {
            TrialObservations(s, respond, hi - 1, t.values);
          }
        } else {
          assert p.values == t.values && LatestStore(before, p.calls) == before by {
            TrialFailureWritesNothing(s, respond, hi - 1, t.values);
            LatestStoreUnwritten(before, p.calls);
          }
        }
      }
    }
  }

  /** Running trials `lo .. mid-1` and then `mid .. hi-1` is running `lo .. hi-1`. */
  lemma {:induction false} TrialsSplit(s: Setup, respond: Respond, lo: nat, mid: nat, hi: int, prior: seq<Token>)
    requires lo <= mid <= hi
    requires Trials(s, respond, lo, mid, prior).failure.None?
    ensures var first := Trials(s, respond, lo, mid, prior);
      var rest := Trials(s, respond, mid, hi, first.values);
      Trials(s, respond, lo, hi, prior) == Progress(first.calls + rest.calls, rest.values, rest.failure)
    decreases hi - mid
  {
    var first := Trials(s, respond, lo, mid, prior);
    if hi == mid {
      assert first.calls + [] == first.calls;
    } else {
      TrialsSplit(s, respond, lo, mid, hi - 1, prior);
      var rest := Trials(s, respond, mid, hi - 1, first.values);
      if rest.failure.None? {
        AppendAssociative(first.calls, rest.calls, Trial(s, respond, hi - 1, rest.values).calls);
      }
    }
  }

  // ---------------------------------------------------------------------------
  // A whole run (lines 56-156)
  // ---------------------------------------------------------------------------

  /**
   * A malformed output "Values" cell, or (when any work is left) a malformed
   * input "Values" cell, is raised before any collaborator is called.
   */
  lemma RunConfigurationErrors(table: seq<InputRow>, output: OutputRow, aspenFile: string,
                               calculatorFile: string, nruns: int, outDir: string, respond: Respond)
    ensures var run := Run(table, output, aspenFile, calculatorFile, nruns, outDir, respond);
      output.values.NonText? ==> run.calls == [] && run.failure == Some(OutputValuesNotText)
    ensures var run := Run(table, output, aspenFile, calculatorFile, nruns, outDir, respond);
      !output.values.NonText? && nruns != |DecodeValues(output.values).value| &&
      (exists row <- table :: !row.values.Text?) ==>
        run.calls == [] && run.failure.Some? && run.failure.value.InputValuesNotText?
  {
  }

  /** When the recorded values already number `nruns`, nothing at all is called and nothing changes. */
  lemma RunNothingLeft(table: seq<InputRow>, output: OutputRow, aspenFile: string,
                       calculatorFile: string, nruns: int, outDir: string, respond: Respond)
    requires DecodeValues(output.values).Ok?
    requires |DecodeValues(output.values).value| == nruns
    ensures var run := Run(table, output, aspenFile, calculatorFile, nruns, outDir, respond);
      run.calls == [] && run.failure.None? && run.values == DecodeValues(output.values).value
  {
  }

  /**
   * When more values are recorded than `nruns`, the sessions are opened and
   * closed but no input is written, nothing is run, saved, loaded or read, and
   * the recorded values are kept.
   */
  lemma RunOverrun(table: seq<InputRow>, output: OutputRow, aspenFile: string,
                   calculatorFile: string, nruns: int, outDir: string, respond: Respond)
    requires DecodeValues(output.values).Ok?
    requires |DecodeValues(output.values).value| > nruns
    requires DecodeInputs(table).Ok?
    ensures var run := Run(table, output, aspenFile, calculatorFile, nruns, outDir, respond);
      && run.calls == [Call.MakeDirs(TmpDir(outDir)), OpenAspen(aspenFile), OpenExcel(calculatorFile), AspenClose, ExcelClose]
      && run.failure.None?
      && run.values == DecodeValues(output.values).value
  {
  }

  /** The setup of the trials of a run, as `Run` builds it. */
  function RunSetup(table: seq<InputRow>, output: OutputRow, outDir: string): Setup
    requires DecodeInputs(table).Ok?
  {
    Setup(table, DecodeInputs(table).value, output.name, output.location, TmpDir(outDir))
  }

  /**
   * A run with work left that completes records exactly `nruns` values, keeps
   * the values recorded before as a prefix, and records for trial `k` the
   * reading of trial `k`'s snapshot.
   */
  lemma RunCompletes(table: seq<InputRow>, output: OutputRow, aspenFile: string,
                     calculatorFile: string, nruns: int, outDir: string, respond: Respond)
    requires DecodeValues(output.values).Ok?
    requires |DecodeValues(output.values).value| < nruns
    requires Run(table, output, aspenFile, calculatorFile, nruns, outDir, respond).failure.None?
    ensures DecodeInputs(table).Ok? && SplitLocation(output.location).Ok?
    ensures var run := Run(table, output, aspenFile, calculatorFile, nruns, outDir, respond);
      var prior := DecodeValues(output.values).value;
      && |run.values| == nruns
      && run.values[..|prior|] == prior
      && (forall k | |prior| <= k < nruns :: run.values[k] == Reading(RunSetup(table, output, outDir), respond, k))
  {
    var prior := DecodeValues(output.values).value;
    var s := RunSetup(table, output, outDir);
    var t := Trials(s, respond, |prior|, nruns, prior);
    TrialsValues(s, respond, |prior|, nruns, prior);
    RunOnTrials(table, output, aspenFile, calculatorFile, nruns, outDir, respond);
    var readings := Readings(s, respond, |prior|, nruns);
    forall k | |prior| <= k < nruns
      ensures t.values[k] == Reading(s, respond, k)
    {
      assert t.values[k] == readings[k - |prior|];
    }
  }

  /**
   * A completed run with work left opens its sessions once, at the start, and
   * closes each exactly once, at the end; no trial opens or closes anything.
   */
  lemma RunOpensAndClosesOnce(table: seq<InputRow>, output: OutputRow, aspenFile: string,
                              calculatorFile: string, nruns: int, outDir: string, respond: Respond)
    requires DecodeValues(output.values).Ok?
    requires |DecodeValues(output.values).value| < nruns
    requires Run(table, output, aspenFile, calculatorFile, nruns, outDir, respond).failure.None?
    ensures var run := Run(table, output, aspenFile, calculatorFile, nruns, outDir, respond);
      && |run.calls| >= 5
      && run.calls[..3] == [Call.MakeDirs(TmpDir(outDir)), OpenAspen(aspenFile), OpenExcel(calculatorFile)]
      && run.calls[|run.calls| - 2..] == [AspenClose, ExcelClose]
      && forall k | 3 <= k < |run.calls| - 2 :: !run.calls[k].IsSessionCall()
  {
    var prior := DecodeValues(output.values).value;
    assert DecodeInputs(table).Ok?;
    var t := Trials(RunSetup(table, output, outDir), respond, |prior|, nruns, prior);
    RunOnTrials(table, output, aspenFile, calculatorFile, nruns, outDir, respond);
    TrialsAreNotSessionCalls(RunSetup(table, output, outDir), respond, |prior|, nruns, prior);
    SessionsAround(Opening(TmpDir(outDir), aspenFile, calculatorFile), t.calls, Closing(t.failure));
  }

  /** Calls that open nothing, between three calls and two more, are exactly the calls in between. */
  lemma SessionsAround(opening: seq<Call>, middle: seq<Call>, closing: seq<Call>)
    requires |opening| == 3 && |closing| == 2
    requires forall c <- middle :: !c.IsSessionCall()
    ensures var calls := opening + middle + closing;
      && |calls| >= 5
      && calls[..3] == opening
      && calls[|calls| - 2..] == closing
      && forall k | 3 <= k < |calls| - 2 :: !calls[k].IsSessionCall()
  {
    var calls := opening + middle + closing;
    forall k | 3 <= k < |calls| - 2
      ensures !calls[k].IsSessionCall()
    {
      assert calls[k] == middle[k - 3];
    }
  }

  /** A trial opens and closes nothing. */
  lemma TrialIsNotSessionCall(s: Setup, respond: Respond, i: nat, values: seq<Token>)
    ensures forall c <- Trial(s, respond, i, values).calls :: !c.IsSessionCall()
  {
    var p := Trial(s, respond, i, values);
    var a := AspenPass(s.infos, i).calls;
    var w := CalculatorPass(s.infos, i).calls;
    var snapshot := SnapshotPath(s.tmpDir, i);
    assert forall c <- a :: !c.IsSessionCall() by {
      AspenPassWritesAspen(s.infos, i);
    }
    assert forall c <- w :: !c.IsSessionCall() by {
      CalculatorPassWritesCells(s.infos, i);
    }
    var saved := a + [AspenRunModel] + [AspenSaveModel(snapshot)];
    var ran := saved + w + [ExcelLoadAspenModel(snapshot)] + [ExcelRunMacro(Macro)];
    if AspenPass(s.infos, i).failure.Some? {
      assert p.calls == a;
    } else if CalculatorPass(s.infos, i).failure.Some? {
      assert p.calls == saved + w;
    } else if SplitLocation(s.outputLocation).Err? {
      assert p.calls == ran;
    } else {
      var loc := SplitLocation(s.outputLocation).value;
      assert p.calls == ran + [ExcelGetCell(loc.0, loc.1)] + [WriteDataset(Checkpoint(s, p.values))];
    }
  }

  /** No trial opens or closes a session. */
  lemma {:induction false} TrialsAreNotSessionCalls(s: Setup, respond: Respond, lo: nat, hi: int, prior: seq<Token>)
    ensures forall c <- Trials(s, respond, lo, hi, prior).calls :: !c.IsSessionCall()
    decreases hi - lo
  {
    if lo < hi {
      var t := Trials(s, respond, lo, hi - 1, prior);
      TrialsAreNotSessionCalls(s, respond, lo, hi - 1, prior);
      if t.failure.None? {
        TrialIsNotSessionCall(s, respond, hi - 1, t.values);
      }
    }
  }

  /** Opening, closing and creating directories show no snapshot and no workbook, and write nothing. */
  lemma {:induction false} ObservationsOfSessions(calls: seq<Call>)
    requires forall c <- calls :: c.IsSessionCall()
    ensures Snapshots(calls) == [] && Checkpoints(calls) == []
    decreases |calls|
  {
    if calls != [] {
      var front := calls[..|calls| - 1];
      var last := calls[|calls| - 1];
      assert calls == front + [last] && last in calls;
      assert forall c <- front :: c in calls;
      ObservationsOfSessions(front);
      ObservationsSnoc(front, last);
    }
  }

  /** The calls that close a run's sessions once its trials have all succeeded (lines 153-154). */
  function Closing(failure: Option<Error>): seq<Call>
  {
    if failure.None? then [AspenClose, ExcelClose] else []
  }

  /** Once the inputs decode and work is left, a run is its trials between opening and closing. */
  lemma RunOnTrials(table: seq<InputRow>, output: OutputRow, aspenFile: string, calculatorFile: string,
                    nruns: int, outDir: string, respond: Respond)
    requires DecodeValues(output.values).Ok?
    requires |DecodeValues(output.values).value| != nruns
    requires DecodeInputs(table).Ok?
    ensures var prior := DecodeValues(output.values).value;
      var t := Trials(RunSetup(table, output, outDir), respond, |prior|, nruns, prior);
      var run := Run(table, output, aspenFile, calculatorFile, nruns, outDir, respond);
      && run.values == t.values && run.failure == t.failure
      && run.calls == Opening(TmpDir(outDir), aspenFile, calculatorFile) + t.calls + Closing(t.failure)
  {
    var prior := DecodeValues(output.values).value;
    var t := Trials(RunSetup(table, output, outDir), respond, |prior|, nruns, prior);
    var started := Opening(TmpDir(outDir), aspenFile, calculatorFile) + t.calls;
    AppendAssociative(started, [AspenClose], [ExcelClose]);
    assert started + [] == started;
  }

  /**
   * Once the sessions are opened, a run shows exactly what its trials show:
   * the same values, error, snapshots, workbooks and final workbook.
   */
  lemma RunShowsTrials(table: seq<InputRow>, output: OutputRow, aspenFile: string, calculatorFile: string,
                       nruns: int, outDir: string, respond: Respond, initial: Store)
    requires DecodeValues(output.values).Ok?
    requires |DecodeValues(output.values).value| != nruns
    requires DecodeInputs(table).Ok?
    ensures var prior := DecodeValues(output.values).value;
      var t := Trials(RunSetup(table, output, outDir), respond, |prior|, nruns, prior);
      var run := Run(table, output, aspenFile, calculatorFile, nruns, outDir, respond);
      && run.values == t.values && run.failure == t.failure
      && Snapshots(run.calls) == Snapshots(t.calls)
      && Checkpoints(run.calls) == Checkpoints(t.calls)
      && LatestStore(initial, run.calls) == LatestStore(initial, t.calls)
  {
    var prior := DecodeValues(output.values).value;
    var t := Trials(RunSetup(table, output, outDir), respond, |prior|, nruns, prior);
    RunOnTrials(table, output, aspenFile, calculatorFile, nruns, outDir, respond);
    ObservationsAround(Opening(TmpDir(outDir), aspenFile, calculatorFile), t.calls, Closing(t.failure), initial);
  }

  /** Session calls around a stretch of calls save no snapshot and write no workbook. */
  lemma ObservationsAround(opening: seq<Call>, middle: seq<Call>, closing: seq<Call>, initial: Store)
    requires forall c <- opening :: c.IsSessionCall()
    requires forall c <- closing :: c.IsSessionCall()
    ensures Snapshots(opening + middle + closing) == Snapshots(middle)
    ensures Checkpoints(opening + middle + closing) == Checkpoints(middle)
    ensures LatestStore(initial, opening + middle + closing) == LatestStore(initial, middle)
  {
    ObservationsOfSessions(opening);
    ObservationsOfSessions(closing);
    ObservationsAppend(opening, middle);
    ObservationsAppend(opening + middle, closing);
    LatestStoreUnwritten(initial, opening);
    LatestStoreAppend(initial, opening, middle);
    LatestStoreAppend(initial, opening + middle, closing);
    LatestStoreUnwritten(LatestStore(initial, opening + middle), closing);
  }

  /**
   * A completed run saves one snapshot per remaining trial, `<tmpDir>/<k>.bkp`
   * for `k` from the number already recorded up to `nruns - 1` in increasing
   * order, and no two of them are the same file.
   */
  lemma RunSnapshots(table: seq<InputRow>, output: OutputRow, aspenFile: string,
                     calculatorFile: string, nruns: int, outDir: string, respond: Respond)
    requires DecodeValues(output.values).Ok?
    requires |DecodeValues(output.values).value| < nruns
    requires Run(table, output, aspenFile, calculatorFile, nruns, outDir, respond).failure.None?
    ensures var run := Run(table, output, aspenFile, calculatorFile, nruns, outDir, respond);
      var saved := Snapshots(run.calls);
      && saved == SnapshotRange(TmpDir(outDir), |DecodeValues(output.values).value|, nruns)
      && forall j, k | 0 <= j < k < |saved| :: saved[j] != saved[k]
  {
    var prior := DecodeValues(output.values).value;
    assert DecodeInputs(table).Ok?;
    var s := RunSetup(table, output, outDir);
    RunShowsTrials(table, output, aspenFile, calculatorFile, nruns, outDir, respond, Checkpoint(s, prior));
    TrialsSnapshots(s, respond, |prior|, nruns, prior);
    SnapshotRangeDistinct(TmpDir(outDir), |prior|, nruns);
  }

  /** No two trials of a range share a snapshot file. */
  lemma SnapshotRangeDistinct(tmpDir: string, lo: nat, hi: int)
    ensures var saved := SnapshotRange(tmpDir, lo, hi);
      forall j, k | 0 <= j < k < |saved| :: saved[j] != saved[k]
  {
    var saved := SnapshotRange(tmpDir, lo, hi);
    forall j, k | 0 <= j < k < |saved|
      ensures saved[j] != saved[k]
    {
      if saved[j] == saved[k] {
        SnapshotPathInjective(tmpDir, lo + j, lo + k);
      }
    }
  }

  /** A checkpoint written after some trials decodes back to exactly the values recorded so far. */
  lemma CheckpointRoundTrip(s: Setup, values: seq<Token>)
    requires |values| >= 1
    ensures Checkpoint(s, values).inputs == s.table
    ensures DecodeValues(Checkpoint(s, values).output.values) == Ok(values)
  {
    assert forall t <- values :: ',' !in t;
    SplitJoin(values, ',');
  }

  /**
   * A completed run rewrites the workbook once per trial; after the `j`-th
   * trial of the run the workbook holds the input table unchanged, and its
   * output cell decodes to the first `completed + j + 1` values.
   */
  lemma RunCheckpoints(table: seq<InputRow>, output: OutputRow, aspenFile: string,
                       calculatorFile: string, nruns: int, outDir: string, respond: Respond)
    requires DecodeValues(output.values).Ok?
    requires |DecodeValues(output.values).value| < nruns
    requires Run(table, output, aspenFile, calculatorFile, nruns, outDir, respond).failure.None?
    ensures var run := Run(table, output, aspenFile, calculatorFile, nruns, outDir, respond);
      var prior := DecodeValues(output.values).value;
      var written := Checkpoints(run.calls);
      && |run.values| == nruns
      && |written| == nruns - |prior|
      && RestoreInOrder(written, table, output.name, output.location, run.values, |prior|)
  {
    var prior := DecodeValues(output.values).value;
    assert DecodeInputs(table).Ok?;
    var s := RunSetup(table, output, outDir);
    var t := Trials(s, respond, |prior|, nruns, prior);
    var run := Run(table, output, aspenFile, calculatorFile, nruns, outDir, respond);
    assert run.values == t.values && Checkpoints(run.calls) == Checkpoints(t.calls) by {
      RunShowsTrials(table, output, aspenFile, calculatorFile, nruns, outDir, respond, Checkpoint(s, prior));
    }
    assert s.table == table && s.outputName == output.name && s.outputLocation == output.location;
    TrialsCheckpointsDecode(s, respond, |prior|, nruns, prior);
  }

  /**
   * The `j`-th of the workbooks `written` keeps the input table, the output
   * name and location, and decodes to the first `start + j + 1` of `values`.
   */
  ghost predicate RestoreInOrder(written: seq<Store>, table: seq<InputRow>, name: string, location: string,
                                 values: seq<Token>, start: nat)
  {
    forall j | 0 <= j < |written| ::
      && start + j + 1 <= |values|
      && written[j].inputs == table
      && written[j].output.name == name
      && written[j].output.location == location
      && DecodeValues(written[j].output.values) == Ok(values[..start + j + 1])
  }

  /** The workbooks written by successful trials keep the inputs and decode to the values so far. */
  lemma TrialsCheckpointsDecode(s: Setup, respond: Respond, lo: nat, hi: int, prior: seq<Token>)
    requires |prior| == lo < hi
    requires Trials(s, respond, lo, hi, prior).failure.None?
    ensures var t := Trials(s, respond, lo, hi, prior);
      var written := Checkpoints(t.calls);
      && |t.values| == hi
      && |written| == hi - lo
      && RestoreInOrder(written, s.table, s.outputName, s.outputLocation, t.values, lo)
  {
    var t := Trials(s, respond, lo, hi, prior);
    assert |t.values| == hi by {
      TrialsValues(s, respond, lo, hi, prior);
    }
    assert Checkpoints(t.calls) == CheckpointsFrom(s, t.values, lo) by {
      TrialsCheckpoints(s, respond, lo, hi, prior);
    }
    CheckpointsFromDecode(s, t.values, lo);
  }

  /** Every workbook written while the values grew keeps the inputs and decodes to the values up to it. */
  lemma CheckpointsFromDecode(s: Setup, values: seq<Token>, start: nat)
    ensures var written := CheckpointsFrom(s, values, start);
      forall j | 0 <= j < |written| ::
        && written[j].inputs == s.table
        && written[j].output.name == s.outputName
        && written[j].output.location == s.outputLocation
        && DecodeValues(written[j].output.values) == Ok(values[..start + j + 1])
  {
    var written := CheckpointsFrom(s, values, start);
    forall j | 0 <= j < |written|
      ensures DecodeValues(written[j].output.values) == Ok(values[..start + j + 1])
    {
      CheckpointRoundTrip(s, values[..start + j + 1]);
    }
  }

  /**
   * Whatever the outcome, the values recorded before stay a prefix. If a run
   * fails once its sessions are open, the workbook holds what it held before
   * when no trial completed, and otherwise the checkpoint of exactly the
   * trials that completed: the failed trial is never recorded.
   */
  lemma RunFailureKeepsCompletedTrials(table: seq<InputRow>, output: OutputRow, aspenFile: string,
                                       calculatorFile: string, nruns: int, outDir: string,
                                       respond: Respond, initial: Store)
    requires DecodeValues(output.values).Ok?
    ensures var run := Run(table, output, aspenFile, calculatorFile, nruns, outDir, respond);
      var prior := DecodeValues(output.values).value;
      && |prior| <= |run.values|
      && run.values[..|prior|] == prior
    ensures var run := Run(table, output, aspenFile, calculatorFile, nruns, outDir, respond);
      var prior := DecodeValues(output.values).value;
      run.failure.Some? && run.calls != [] ==>
        && DecodeInputs(table).Ok?
        && LatestStore(initial, run.calls) ==
             if |run.values| == |prior| then initial else Checkpoint(RunSetup(table, output, outDir), run.values)
  {
    var prior := DecodeValues(output.values).value;
    assert prior[..|prior|] == prior;
    if nruns - |prior| != 0 && DecodeInputs(table).Ok? {
      var s := RunSetup(table, output, outDir);
      RunShowsTrials(table, output, aspenFile, calculatorFile, nruns, outDir, respond, initial);
      TrialsValues(s, respond, |prior|, nruns, prior);
      TrialsLatestStore(s, respond, |prior|, nruns, prior, initial);
    }
  }

  /**
   * Resuming from any checkpoint of a completed run, with the same trial count
   * and the same calculator answers, records the same values as the run that
   * was not interrupted.
   */
  lemma ResumeFromCheckpoint(table: seq<InputRow>, output: OutputRow, aspenFile: string,
                             calculatorFile: string, nruns: int, outDir: string, respond: Respond, j: nat)
    requires DecodeValues(output.values).Ok?
    requires |DecodeValues(output.values).value| < nruns
    requires Run(table, output, aspenFile, calculatorFile, nruns, outDir, respond).failure.None?
    requires j < |Checkpoints(Run(table, output, aspenFile, calculatorFile, nruns, outDir, respond).calls)|
    ensures var run := Run(table, output, aspenFile, calculatorFile, nruns, outDir, respond);
      var saved := Checkpoints(run.calls)[j];
      var resumed := Run(saved.inputs, saved.output, aspenFile, calculatorFile, nruns, outDir, respond);
      resumed.failure.None? && resumed.values == run.values
  {
    var prior := DecodeValues(output.values).value;
    var run := Run(table, output, aspenFile, calculatorFile, nruns, outDir, respond);
    RunCompletes(table, output, aspenFile, calculatorFile, nruns, outDir, respond);
    RunCheckpoints(table, output, aspenFile, calculatorFile, nruns, outDir, respond);
    var saved := Checkpoints(run.calls)[j];
    var s := RunSetup(table, output, outDir);
    var lo, mid := |prior|, |prior| + j + 1;
    var first := Trials(s, respond, lo, mid, prior);
    if first.failure.Some? {
      TrialsStopAtFailure(s, respond, lo, mid, nruns, prior);
      assert false;
    }
    TrialsSplit(s, respond, lo, mid, nruns, prior);
    TrialsValues(s, respond, lo, mid, prior);
    TrialsValues(s, respond, mid, nruns, first.values);
    assert first.values == run.values[..mid];
    assert RunSetup(saved.inputs, saved.output, outDir) == s;
  }
}


