/**
 * Loading the four bundled tables on import (pybabynames/__init__.py:49-84).
 *
 * A table is opaque (the type parameter `T`). Reading one file through the active
 * framework, `_load_dataframe`, is an oracle `load(framework, dataset)` that either
 * yields a table or fails, and a failure is either an ImportError (from
 * `import_module` or the reader) or any other exception, because the two `except`
 * branches at :79-84 differ only in the warning they emit.
 */
module DataLoader {
  import opened Outcomes
  import opened FrameworkResolver

  /** The four bundled datasets. */
  datatype Dataset = Babynames | Applicants | Births | Lifetables

  /** The order in which the datasets are loaded (:75-78). */
  const LoadOrder: seq<Dataset> := [Babynames, Applicants, Births, Lifetables]

  /** The parquet file each dataset is read from, inside the package's data directory (:75-78). */
  function FileName(d: Dataset): string
  {
    match d
    case Babynames => "babynames.parquet"
    case Applicants => "applicants.parquet"
    case Births => "births.parquet"
    case Lifetables => "lifetables.parquet"
  }

  /**
   * What one call of `_load_dataframe` does: return a table, or raise. The oracle
   * `load(framework, d)` stands for reading the file `FileName(d)` with `framework`.
   */
  datatype LoadOutcome<T> = Loaded(table: T) | ImportFailure | OtherFailure

  /** The warning each `except` branch emits: :80 for ImportError, :83 for anything else. */
  function FailureWarning<T>(o: LoadOutcome<T>): (w: Warning)
    requires !o.Loaded?
    ensures w == LibraryUnavailable <==> o.ImportFailure?
    ensures w == LoadFailed <==> o.OtherFailure?
  {
    if o.ImportFailure? then LibraryUnavailable else LoadFailed
  }

  /** How the load block ends: every table read, or the first dataset whose read raised. */
  datatype LoadReport<T> = AllLoaded(tables: seq<T>) | FailedAt(dataset: Dataset, warning: Warning)

  /**
   * Reading `pending` one dataset after the other with `framework`, stopping at the
   * first read that raises.
   */
  function LoadInOrder<T>(framework: Framework, load: (Framework, Dataset) -> LoadOutcome<T>,
                          pending: seq<Dataset>): (r: LoadReport<T>)
    ensures r.AllLoaded? <==> forall d :: d in pending ==> load(framework, d).Loaded?
    ensures r.AllLoaded? ==>
      |r.tables| == |pending| &&
      forall i :: 0 <= i < |pending| ==> load(framework, pending[i]) == Loaded(r.tables[i])
    ensures r.FailedAt? ==>
      exists k :: 0 <= k < |pending| && pending[k] == r.dataset &&
        !load(framework, pending[k]).Loaded? &&
        r.warning == FailureWarning(load(framework, pending[k])) &&
        forall j :: 0 <= j < k ==> load(framework, pending[j]).Loaded?
  {
    if pending == [] then AllLoaded([])
    else
      var first := load(framework, pending[0]);
      assert forall d :: d in pending ==> d == pending[0] || d in pending[1..];
      if !first.Loaded? then
        FailedAt(pending[0], FailureWarning(first))
      else
        match LoadInOrder(framework, load, pending[1..])
        case AllLoaded(rest) =>
          AllLoaded([first.table] + rest)
        case FailedAt(d, w) =>
          var k :| 0 <= k < |pending[1..]| && pending[1..][k] == d &&
                   !load(framework, pending[1..][k]).Loaded? &&
                   w == FailureWarning(load(framework, pending[1..][k])) &&
                   forall j :: 0 <= j < k ==> load(framework, pending[1..][j]).Loaded?;
          assert pending[k + 1] == d && forall j :: 0 <= j < k + 1 ==> load(framework, pending[j]).Loaded?;
          FailedAt(d, w)
  }

  /** The whole load block (:74-84) as a value. */
  function LoadBlock<T>(framework: Framework, load: (Framework, Dataset) -> LoadOutcome<T>): (r: LoadReport<T>)
    ensures r.AllLoaded? <==> forall d :: d in LoadOrder ==> load(framework, d).Loaded?
    ensures r.AllLoaded? ==> |r.tables| == |LoadOrder|
    ensures r.FailedAt? ==>
      !load(framework, r.dataset).Loaded? && r.warning == FailureWarning(load(framework, r.dataset))
  {
    LoadInOrder(framework, load, LoadOrder)
  }

  /** What the four names `babynames`, `applicants`, `births`, `lifetables` are bound to after the block. */
  function Bindings<T>(r: LoadReport<T>): (b: seq<Option<T>>)
    ensures r.AllLoaded? ==> |b| == |r.tables| && forall i :: 0 <= i < |b| ==> b[i] == Some(r.tables[i])
    ensures r.FailedAt? ==> b == [None, None, None, None]
  {
    match r
    case AllLoaded(ts) => seq(|ts|, i requires 0 <= i < |ts| => Some(ts[i]))
    case FailedAt(_, _) => [None, None, None, None]
  }

  /** The warnings the block emits: one, from whichever `except` branch ran. */
  function LoadWarnings<T>(r: LoadReport<T>): (w: seq<Warning>)
    ensures w == [] <==> r.AllLoaded?
    ensures r.FailedAt? ==> w == [r.warning]
  {
    match r
    case AllLoaded(_) => []
    case FailedAt(_, w) => [w]
  }

  /**
   * All or nothing: the four names hold the four tables read, in order, exactly when
   * every read succeeds, and otherwise all four are `None` (:74-84).
   */
  lemma AllOrNothing<T>(framework: Framework, load: (Framework, Dataset) -> LoadOutcome<T>)
    ensures |Bindings(LoadBlock(framework, load))| == 4
    ensures (forall d :: d in LoadOrder ==> load(framework, d).Loaded?) ==>
      forall i :: 0 <= i < 4 ==>
        Bindings(LoadBlock(framework, load))[i] == Some(load(framework, LoadOrder[i]).table)
    ensures !(forall d :: d in LoadOrder ==> load(framework, d).Loaded?) ==>
      Bindings(LoadBlock(framework, load)) == [None, None, None, None]
  {
    var r := LoadBlock(framework, load);
    if r.AllLoaded? {
      forall i | 0 <= i < 4
        ensures Bindings(r)[i] == Some(load(framework, LoadOrder[i]).table)
      {
        assert load(framework, LoadOrder[i]) == Loaded(r.tables[i]);
      }
    }
  }

  /**
   * A failing read resets the tables read before it: when the reads before
   * position `k` succeed and the one at `k` raises, every name is `None` and the
   * warning is the one for that read's exception (for `k == 2`, a failure reading
   * births also unbinds babynames and applicants).
   */
  lemma FailureResetsEarlierTables<T>(framework: Framework, load: (Framework, Dataset) -> LoadOutcome<T>, k: nat)
    requires k < |LoadOrder|
    requires forall j :: 0 <= j < k ==> load(framework, LoadOrder[j]).Loaded?
    requires !load(framework, LoadOrder[k]).Loaded?
    ensures LoadBlock(framework, load) == FailedAt(LoadOrder[k], FailureWarning(load(framework, LoadOrder[k])))
    ensures Bindings(LoadBlock(framework, load)) == [None, None, None, None]
    ensures LoadWarnings(LoadBlock(framework, load)) == [FailureWarning(load(framework, LoadOrder[k]))]
  {
    var r := LoadBlock(framework, load);
    assert LoadOrder[k] in LoadOrder;
    var m :| 0 <= m < |LoadOrder| && LoadOrder[m] == r.dataset &&
             !load(framework, LoadOrder[m]).Loaded? &&
             r.warning == FailureWarning(load(framework, LoadOrder[m])) &&
             forall j :: 0 <= j < m ==> load(framework, LoadOrder[j]).Loaded?;
    assert m == k;
  }

  /** When every read succeeds, the names are bound to the tables read and nothing is reported. */
  lemma AllTablesLoaded<T>(framework: Framework, load: (Framework, Dataset) -> LoadOutcome<T>)
    requires load(framework, Babynames).Loaded? && load(framework, Applicants).Loaded?
    requires load(framework, Births).Loaded? && load(framework, Lifetables).Loaded?
    ensures Bindings(LoadBlock(framework, load)) ==
      [Some(load(framework, Babynames).table), Some(load(framework, Applicants).table),
       Some(load(framework, Births).table), Some(load(framework, Lifetables).table)]
    ensures LoadWarnings(LoadBlock(framework, load)) == []
  {
    assert forall d :: d in LoadOrder ==> load(framework, d).Loaded?;
    AllOrNothing(framework, load);
  }

  /**
   * The module-level state of the package once its body has run: the availability
   * map, the active framework, the four table names and the warnings emitted.
   */
  class Package<T> {
    const available: Framework -> bool          // FRAMEWORK_AVAILABLE (:17-20)
    const activeFramework: Framework            // ACTIVE_DATAFRAME_FRAMEWORK (:49)
    var babynames: Option<T>
    var applicants: Option<T>
    var births: Option<T>
    var lifetables: Option<T>
    var warnings: seq<Warning>

    /** The four table names, in load order. */
    function Tables(): seq<Option<T>>
      reads this
    {
      [babynames, applicants, births, lifetables]
    }

    /** Either every table name is bound to a table or none is. */
    ghost predicate AllOrNone()
      reads this
    {
      (babynames.Some? && applicants.Some? && births.Some? && lifetables.Some?) ||
      (babynames.None? && applicants.None? && births.None? && lifetables.None?)
    }

    /** The state just before the load block: the framework chosen, no table bound yet. */
    constructor (available: Framework -> bool, activeFramework: Framework, warnings: seq<Warning>)
      ensures this.available == available && this.activeFramework == activeFramework
      ensures this.warnings == warnings
      ensures Tables() == [None, None, None, None]
    {
      this.available := available;
      this.activeFramework := activeFramework;
      this.warnings := warnings;
      babynames, applicants, births, lifetables := None, None, None, None;
    }

    /** The two `except` branches (:79-84): warn, then bind all four names to `None`. */
    method Abandon(failure: LoadOutcome<T>)
      requires !failure.Loaded?
      modifies this
      ensures Tables() == [None, None, None, None]
      ensures warnings == old(warnings) + [FailureWarning(failure)]
    {
      warnings := warnings + [FailureWarning(failure)];
      babynames, applicants, lifetables, births := None, None, None, None;
    }

    /**
     * The `try` block (:74-78): read the four datasets in order with the active
     * framework, binding each name as soon as its table is read; the first read
     * that raises abandons the whole block.
     */
    method LoadTables(load: (Framework, Dataset) -> LoadOutcome<T>)
      modifies this
      ensures AllOrNone()
      ensures Tables() == Bindings(LoadBlock(activeFramework, load))
      ensures warnings == old(warnings) + LoadWarnings(LoadBlock(activeFramework, load))
    {
      var fw := activeFramework;
      ghost var at := 0;  // the position in LoadOrder of the read that produced `outcome`
      var outcome := load(fw, Babynames);
      if outcome.Loaded? {
        babynames := Some(outcome.table);
        outcome, at := load(fw, Applicants), 1;
        if outcome.Loaded? {
          applicants := Some(outcome.table);
          outcome, at := load(fw, Births), 2;
          if outcome.Loaded? {
            births := Some(outcome.table);
            outcome, at := load(fw, Lifetables), 3;
            if outcome.Loaded? {
              lifetables := Some(outcome.table);
            }
          }
        }
      }
      if !outcome.Loaded? {
        FailureResetsEarlierTables(fw, load, at);
        Abandon(outcome);
      } else {
        AllTablesLoaded(fw, load);
      }
    }
  }

  /** Importing the package either fails or yields its module state. */
  datatype Imported<T> = Module(package: Package<T>) | ImportFailed(warnings: seq<Warning>)

  /**
   * Importing the package (:17-84): resolve the framework, then run the load block.
   * Resolution sits outside the `try`, so when no framework is installed its
   * ImportError escapes and the import itself fails; only a failing read leaves
   * the package importable with every table `None`.
   */
  method Import<T>(config: Option<string>, available: Framework -> bool,
                   load: (Framework, Dataset) -> LoadOutcome<T>) returns (r: Imported<T>)
    ensures r.ImportFailed? <==> Resolve(config, available).result.Err?
    ensures r.ImportFailed? ==> r.warnings == Resolve(config, available).warnings
    ensures r.Module? ==>
      var fw := Resolve(config, available).result.value;
      && fresh(r.package)
      && r.package.available == available
      && r.package.activeFramework == fw
      && r.package.AllOrNone()
      && r.package.Tables() == Bindings(LoadBlock(fw, load))
      && r.package.warnings == Resolve(config, available).warnings + LoadWarnings(LoadBlock(fw, load))
  {
    var resolution := Resolve(config, available);
    if resolution.result.Err? {
      return ImportFailed(resolution.warnings);
    }
    var package := new Package(available, resolution.result.value, resolution.warnings);
    package.LoadTables(load);
    r := Module(package);
  }
}
