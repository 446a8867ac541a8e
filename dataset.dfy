/**
 * The dataset workbook as the orchestration loop sees it: an "Inputs" table
 * of variables, a one-row "Output" table, the decoding of their "Values"
 * cells, the `sheet!cell` location convention and the per-trial snapshot path
 * (FY21_Q3/generate_dataset.py, run_and_update).
 */
module Dataset {
  import opened Strings

  /** One recorded or input value, as the text that stands for it in a "Values" cell. */
  type Token = t: string | ',' !in t

  /** What pandas hands back for a "Values" cell. */
  datatype Cell =
    | Text(text: string)   // a string cell
    | Blank                // an empty cell, read as NaN
    | NonText              // any other content: a number, a date, a boolean

  /** A row of the "Inputs" sheet: variable name, type tag, location, values. */
  datatype InputRow = InputRow(name: string, kind: string, location: string, values: Cell)

  /** The single row of the "Output" sheet: variable name, location, values so far. */
  datatype OutputRow = OutputRow(name: string, location: string, values: Cell)

  /** The persisted workbook: both sheets. */
  datatype Store = Store(inputs: seq<InputRow>, output: OutputRow)

  /** An input row once its "Values" cell has been split into per-trial values. */
  datatype InputInfo = InputInfo(name: string, kind: string, location: string, values: seq<Token>)

  /** The exceptions the loop can raise. */
  datatype Error =
    | OutputValuesNotText                      // TypeError: the output "Values" cell is neither text nor empty
    | InputValuesNotText(variable: string)     // AttributeError: `.split` on a non-string input cell
    | NoValueForTrial(variable: string, trial: nat)  // IndexError: `values[i]` past the end
    | MalformedLocation(location: string)      // ValueError: the location does not split into two parts

  datatype Option<+T> = None | Some(value: T)

  datatype Result<+T> = Ok(value: T) | Err(error: Error)

  /**
   * Decodes the output "Values" cell into the values recorded so far: a string
   * gives its comma-separated tokens, an empty cell gives none, anything else
   * is an error.
   */
  function DecodeValues(cell: Cell): (r: Result<seq<Token>>)
    ensures cell.Text? ==> r.Ok? && |r.value| >= 1 && Join(r.value, ',') == cell.text
    ensures cell.Text? ==> |r.value| == Occurrences(cell.text, ',') + 1
    ensures cell.Blank? ==> r == Ok([])
    ensures cell.NonText? ==> r == Err(OutputValuesNotText)
  {
    match cell
    case Text(s) =>
      JoinSplit(s, ',');
      SplitCount(s, ',');
      Ok(Split(s, ','))
    case Blank => Ok([])
    case NonText => Err(OutputValuesNotText)
  }

  /** The input row with its values split into tokens. */
  function InfoOf(row: InputRow): InputInfo
    requires row.values.Text?
  {
    InputInfo(row.name, row.kind, row.location, Split(row.values.text, ','))
  }

  /**
   * Rebuilds the input variables from the "Inputs" rows, in order; the first
   * row whose "Values" cell is not a string is an error.
   */
  function DecodeInputs(table: seq<InputRow>): (r: Result<seq<InputInfo>>)
    ensures r.Ok? <==> forall k | 0 <= k < |table| :: table[k].values.Text?
    ensures r.Ok? ==> |r.value| == |table|
    ensures r.Ok? ==> forall k | 0 <= k < |table| :: r.value[k] == InfoOf(table[k])
    ensures r.Err? ==> exists k | 0 <= k < |table| ::
      !table[k].values.Text? && r.error == InputValuesNotText(table[k].name) &&
      forall j | 0 <= j < k :: table[j].values.Text?
    decreases |table|
  {
    if table == [] then Ok([])
    else
      var front := table[..|table| - 1];
      var row := table[|table| - 1];
      var p := DecodeInputs(front);
      if p.Err? then p
      else if row.values.Text? then Ok(p.value + [InfoOf(row)])
      else Err(InputValuesNotText(row.name))
  }

  /**
   * The loop of lines 90-94 that remakes the input variables one row at a time.
   */
  method RemakeInputs(table: seq<InputRow>) returns (r: Result<seq<InputInfo>>)
    ensures r == DecodeInputs(table)
  {
    var infos: seq<InputInfo> := [];
    for k := 0 to |table|
      invariant DecodeInputs(table[..k]) == Ok(infos)
    {
      var row := table[k];
      assert table[..k + 1][..k] == table[..k];
      if !row.values.Text? {
        return Err(InputValuesNotText(row.name));
      }
      infos := infos + [InfoOf(row)];
    }
    assert table[..|table|] == table;
    return Ok(infos);
  }

  /**
   * Python's `sheet, cell = location.split('!')`: the location must hold
   * exactly one `!`.
   */
  function SplitLocation(location: string): (r: Result<(string, string)>)
    ensures r.Ok? <==> Occurrences(location, '!') == 1
    ensures r.Ok? ==> location == r.value.0 + "!" + r.value.1
    ensures r.Ok? ==> '!' !in r.value.0 && '!' !in r.value.1
    ensures r.Err? ==> r.error == MalformedLocation(location)
  {
    var parts := Split(location, '!');
    SplitCount(location, '!');
    JoinSplit(location, '!');
    if |parts| == 2 then
      assert parts[1..] == [parts[1]];
      Ok((parts[0], parts[1]))
    else Err(MalformedLocation(location))
  }

  /** The directory holding the per-trial snapshots, next to the dataset file. */
  function TmpDir(outDir: string): string
  {
    outDir + "/tmp"
  }

  /** The snapshot file of trial `i`: `<tmpDir>/<i>.bkp`. */
  function SnapshotPath(tmpDir: string, i: nat): string
  {
    tmpDir + "/" + Decimal(i) + ".bkp"
  }

  /** Distinct trials of one run save to distinct snapshot files. */
  lemma {:induction false} SnapshotPathInjective(tmpDir: string, i: nat, j: nat)
    requires SnapshotPath(tmpDir, i) == SnapshotPath(tmpDir, j)
    ensures i == j
  {
    var p, q := SnapshotPath(tmpDir, i), SnapshotPath(tmpDir, j);
    var n := |tmpDir| + 1;
    assert |Decimal(i)| == |p| - n - 4 == |Decimal(j)|;
    assert p[n..|p| - 4] == Decimal(i);
    assert q[n..|q| - 4] == Decimal(j);
    DecimalInjective(i, j);
  }
}


