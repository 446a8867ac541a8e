/**
 * The external collaborators of the loop: the Aspen process simulator, the
 * Excel calculator, the dataset file and the file system. Their internals are
 * not modelled; each object records the calls made on it, in order, in one
 * shared Log, and the calculator answers a cell read from the snapshot it has
 * loaded (FY21_Q3/generate_dataset.py:37, 99-154).
 */
module Tools {
  import opened Dataset

  /** One call made on an external collaborator. */
  datatype Call =
    | MakeDirs(path: string)                                  // os.makedirs(path, exist_ok = True)
    | OpenAspen(file: string)                                 // Aspen(aspen_file)
    | OpenExcel(file: string)                                 // Excel(calculator_file)
    | AspenSetValue(location: string, value: Token, fortran: bool)
    | AspenRunModel
    | AspenSaveModel(path: string)
    | AspenClose
    | ExcelSetCell(value: Token, sheet: string, cell: string)
    | ExcelLoadAspenModel(path: string)
    | ExcelRunMacro(name: string)
    | ExcelGetCell(sheet: string, cell: string)
    | ExcelClose
    | WriteDataset(store: Store)                              // the whole workbook rewritten
  {
    /** Opening, closing and directory creation: the calls made once per run. */
    predicate IsSessionCall()
    {
      MakeDirs? || OpenAspen? || OpenExcel? || AspenClose? || ExcelClose?
    }
  }

  /**
   * How the calculator answers `get_cell(sheet, cell)`, given the snapshot it
   * last loaded: deterministic, otherwise unconstrained.
   */
  type Respond = (string, string, string) -> Token

  /** The record of every call made on the external collaborators, in order. */
  class Log {
    var calls: seq<Call>

    constructor ()
      ensures calls == []
    {
      calls := [];
    }

    method Record(c: Call)
      modifies this
      ensures calls == old(calls) + [c]
    {
      calls := calls + [c];
    }
  }

  /** `os.makedirs(path, exist_ok = True)`: idempotent, never an error. */
  method MakeDirectories(log: Log, path: string)
    modifies log
    ensures log.calls == old(log.calls) + [Call.MakeDirs(path)]
  {
    log.Record(Call.MakeDirs(path));
  }

  /** A session of the Aspen process simulator. */
  class Aspen {
    const log: Log
    const file: string

    constructor (file: string, log: Log)
      modifies log
      ensures this.log == log && this.file == file
      ensures log.calls == old(log.calls) + [OpenAspen(file)]
    {
      this.log := log;
      this.file := file;
      new;
      log.Record(OpenAspen(file));
    }

    /** Writes `value` at `location`; `fortran` selects the Fortran-block write path. */
    method SetValue(location: string, value: Token, fortran: bool)
      modifies log
      ensures log.calls == old(log.calls) + [AspenSetValue(location, value, fortran)]
    {
      log.Record(AspenSetValue(location, value, fortran));
    }

    method RunModel()
      modifies log
      ensures log.calls == old(log.calls) + [AspenRunModel]
    {
      log.Record(AspenRunModel);
    }

    /** Saves the current model state as the snapshot file `path`. */
    method SaveModel(path: string)
      modifies log
      ensures log.calls == old(log.calls) + [AspenSaveModel(path)]
    {
      log.Record(AspenSaveModel(path));
    }

    method Close()
      modifies log
      ensures log.calls == old(log.calls) + [AspenClose]
    {
      log.Record(AspenClose);
    }
  }

  /** A session of the Excel economic calculator. */
  class Excel {
    const log: Log
    const file: string
    const respond: Respond
    /** The snapshot last loaded; "" until one is. */
    var loaded: string

    constructor (file: string, log: Log, respond: Respond)
      modifies log
      ensures this.log == log && this.file == file && this.respond == respond
      ensures loaded == ""
      ensures log.calls == old(log.calls) + [OpenExcel(file)]
    {
      this.log := log;
      this.file := file;
      this.respond := respond;
      loaded := "";
      new;
      log.Record(OpenExcel(file));
    }

    method SetCell(value: Token, sheet: string, cell: string)
      modifies log
      ensures log.calls == old(log.calls) + [ExcelSetCell(value, sheet, cell)]
    {
      log.Record(ExcelSetCell(value, sheet, cell));
    }

    /** Loads an Aspen snapshot as the calculator's working context. */
    method LoadAspenModel(path: string)
      modifies this, log
      ensures loaded == path
      ensures log.calls == old(log.calls) + [ExcelLoadAspenModel(path)]
    {
      loaded := path;
      log.Record(ExcelLoadAspenModel(path));
    }

    method RunMacro(name: string)
      modifies log
      ensures log.calls == old(log.calls) + [ExcelRunMacro(name)]
    {
      log.Record(ExcelRunMacro(name));
    }

    /** Reads a cell; the answer depends on the loaded snapshot and the cell asked for. */
    method GetCell(sheet: string, cell: string) returns (v: Token)
      modifies log
      ensures v == respond(loaded, sheet, cell)
      ensures log.calls == old(log.calls) + [ExcelGetCell(sheet, cell)]
    {
      v := respond(loaded, sheet, cell);
      log.Record(ExcelGetCell(sheet, cell));
    }

    method Close()
      modifies log
      ensures log.calls == old(log.calls) + [ExcelClose]
    {
      log.Record(ExcelClose);
    }
  }

  /** The dataset workbook on disk. */
  class DatasetFile {
    const log: Log
    var store: Store

    constructor (store: Store, log: Log)
      ensures this.log == log && this.store == store
    {
      this.log := log;
      this.store := store;
    }

    /** Overwrites the whole workbook with `s`. */
    method Write(s: Store)
      modifies this, log
      ensures store == s
      ensures log.calls == old(log.calls) + [WriteDataset(s)]
    {
      store := s;
      log.Record(WriteDataset(s));
    }
  }

  /** Regrouping appended calls; stated once so that callers need not re-derive it. */
  lemma AppendAssociative(a: seq<Call>, b: seq<Call>, c: seq<Call>)
    ensures a + b + c == a + (b + c)
  {
  }

  /** The workbook's contents after `calls`, starting from `initial`: the last write wins. */
  function LatestStore(initial: Store, calls: seq<Call>): Store
    decreases |calls|
  {
    if calls == [] then initial
    else if calls[|calls| - 1].WriteDataset? then calls[|calls| - 1].store
    else LatestStore(initial, calls[..|calls| - 1])
  }

  /** Calls that write nothing leave the workbook as it was. */
  lemma {:induction false} LatestStoreUnwritten(initial: Store, calls: seq<Call>)
    requires forall c <- calls :: !c.WriteDataset?
    ensures LatestStore(initial, calls) == initial
    decreases |calls|
  {
    if calls != [] {
      LatestStoreUnwritten(initial, calls[..|calls| - 1]);
    }
  }

  /** The workbook after `a + b` is the workbook after `b`, starting from the one after `a`. */
  lemma {:induction false} LatestStoreAppend(initial: Store, a: seq<Call>, b: seq<Call>)
    ensures LatestStore(initial, a + b) == LatestStore(LatestStore(initial, a), b)
    decreases |b|
  {
    if b == [] {
      assert a + b == a;
    } else {
      assert (a + b)[..|a + b| - 1] == a + b[..|b| - 1];
      LatestStoreAppend(initial, a, b[..|b| - 1]);
    }
  }
}

