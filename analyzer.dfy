/** The analyzer script: align the simulator's output table to the sampled
    runs, hand each target variable's outputs to the library's Morris
    analysis, keep the indices by variable and date, and flatten them into
    one results row per parameter. */
module Analyzer {
  import opened PyText
  import Sampler

  /** The output column that holds the run number. */
  const RUN_COLUMN: string := "SArun"
  /** The statistics written per parameter, in column order. */
  const IDX_NAMES: seq<string> := ["mu", "mu_star", "mu_star_conf", "sigma"]
  const HEADER: seq<string> := ["var", "date", "param"] + IDX_NAMES
  const RESULTS_PREFIX: string := "Indices_"
  const NUM_RESAMPLES: nat := 1000
  const CONF_LEVEL: real := 0.95

  /** The simulator's output table as the script reads it: named numeric
      columns of `nRows` cells each. */
  datatype SimTable = SimTable(nRows: nat, columns: map<string, seq<real>>)

  /** Every column of the table has one cell per row. */
  predicate Rectangular(t: SimTable) {
    forall c :: c in t.columns ==> |t.columns[c]| == t.nRows
  }

  /** The arguments of the call into the library's Morris analysis. */
  datatype AnalyzeRequest = AnalyzeRequest(
    problem: Sampler.Problem,
    x: seq<seq<real>>,
    y: seq<real>,
    numResamples: nat,
    confLevel: real,
    printToConsole: bool,
    gridJump: nat,
    numLevels: nat)

  /** The dict the analysis returns: the parameter names, and each statistic's
      list by its name. */
  datatype MorrisIndices = MorrisIndices(names: seq<string>, stats: map<string, seq<real>>)

  /** `all_morris_indices`: target variable, then date (None for a summary
      file), then the indices. */
  type Store = map<string, map<Option<string>, MorrisIndices>>

  datatype Error =
    | MissingColumn(name: string)
    | NoOutputForRun(run: nat)
    | IncompleteIndices(variable: string)

  // ---------------------------------------------------------------------
  // Aligning the output table to the runs (`Y`)

  /** The first row whose run column holds `run`. */
  function FirstRow(runs: seq<real>, run: nat): (r: Option<nat>)
    ensures r.Some? ==> r.value < |runs| && runs[r.value] == run as real
    ensures forall j :: 0 <= j < |runs| && (r.None? || j < r.value) ==> runs[j] != run as real
  {
    if runs == [] then None
    else if runs[0] == run as real then Some(0)
    else match FirstRow(runs[1..], run)
      case None => None
      case Some(j) => Some(j + 1)
  }

  /** `sim_out.loc[sim_out["SArun"] == run, t_var].values`: the target cells of
      the rows of `run`, in row order. */
  function Matching(runs: seq<real>, col: seq<real>, run: nat): seq<real>
    requires |runs| == |col|
  {
    if runs == [] then []
    else (if runs[0] == run as real then [col[0]] else []) + Matching(runs[1..], col[1..], run)
  }

  /** Taking `[0]` of the matching cells reads the first matching row, and
      fails exactly when no row matches. */
  lemma {:induction false} MatchingHead(runs: seq<real>, col: seq<real>, run: nat)
    requires |runs| == |col|
    ensures |Matching(runs, col, run)| > 0 <==> FirstRow(runs, run).Some?
    ensures |Matching(runs, col, run)| > 0 ==> Matching(runs, col, run)[0] == col[FirstRow(runs, run).value]
  {
    if runs != [] && runs[0] != run as real {
      MatchingHead(runs[1..], col[1..], run);
    }
  }

  /** The outputs of runs `k..n-1`, after `y`. */
  function AlignFrom(t: SimTable, tVar: string, n: nat, k: nat, y: seq<real>): Result<seq<real>, Error>
    requires Rectangular(t) && k <= n
    decreases n - k
  {
    if k == n then Ok(y)
    else if RUN_COLUMN !in t.columns then Err(MissingColumn(RUN_COLUMN))
    else if tVar !in t.columns then Err(MissingColumn(tVar))
    else match FirstRow(t.columns[RUN_COLUMN], k)
      case None => Err(NoOutputForRun(k))
      case Some(j) => AlignFrom(t, tVar, n, k + 1, y + [t.columns[tVar][j]])
  }

  /** The output vector `Y` of `n` runs for target variable `tVar`. */
  function Align(t: SimTable, tVar: string, n: nat): Result<seq<real>, Error>
    requires Rectangular(t)
  {
    AlignFrom(t, tVar, n, 0, [])
  }

  lemma {:induction false} AlignFromSpec(t: SimTable, tVar: string, n: nat, k: nat, y: seq<real>)
    requires Rectangular(t) && k <= n
    ensures var r := AlignFrom(t, tVar, n, k, y);
      && (r.Ok? <==> k == n || (RUN_COLUMN in t.columns && tVar in t.columns
                               && forall j :: k <= j < n ==> FirstRow(t.columns[RUN_COLUMN], j).Some?))
      && (r.Ok? ==> |r.value| == |y| + n - k && r.value[..|y|] == y)
      && (r.Ok? ==> forall j :: k <= j < n ==>
            && FirstRow(t.columns[RUN_COLUMN], j).Some?
            && r.value[|y| + j - k] == t.columns[tVar][FirstRow(t.columns[RUN_COLUMN], j).value])
    decreases n - k
  {
    if k < n && RUN_COLUMN in t.columns && tVar in t.columns && FirstRow(t.columns[RUN_COLUMN], k).Some? {
      var runs, col := t.columns[RUN_COLUMN], t.columns[tVar];
      var y' := y + [col[FirstRow(runs, k).value]];
      AlignFromSpec(t, tVar, n, k + 1, y');
      var r := AlignFrom(t, tVar, n, k, y);
      assert r == AlignFrom(t, tVar, n, k + 1, y');
      if r.Ok? {
        assert r.value[..|y|] == (r.value[..|y| + 1])[..|y|];
        assert r.value[|y|] == y'[|y|];
      }
      if forall j :: k < j < n ==> FirstRow(runs, j).Some? {
        forall j | k <= j < n
          ensures FirstRow(runs, j).Some?
        {
        }
      }
    } else if k < n && RUN_COLUMN in t.columns && tVar in t.columns {
      assert !FirstRow(t.columns[RUN_COLUMN], k).Some?;
    }
  }

  /** `Y` has one entry per run; entry `k` is the target value of the FIRST row
      whose run column is `k`; it fails when a run has no row (or a column is
      missing), except that zero runs read nothing at all. */
  lemma AlignSpec(t: SimTable, tVar: string, n: nat)
    requires Rectangular(t)
    ensures var r := Align(t, tVar, n);
      && (r.Ok? <==> n == 0 || (RUN_COLUMN in t.columns && tVar in t.columns
                               && forall k :: 0 <= k < n ==> FirstRow(t.columns[RUN_COLUMN], k).Some?))
      && (r.Ok? ==> |r.value| == n)
      && (r.Ok? ==> forall k :: 0 <= k < n ==>
            && FirstRow(t.columns[RUN_COLUMN], k).Some?
            && r.value[k] == t.columns[tVar][FirstRow(t.columns[RUN_COLUMN], k).value])
  {
    AlignFromSpec(t, tVar, n, 0, []);
    var r := Align(t, tVar, n);
    if r.Ok? {
      forall k | 0 <= k < n
        ensures r.value[k] == t.columns[tVar][FirstRow(t.columns[RUN_COLUMN], k).value]
      {
        assert r.value[0 + k - 0] == r.value[k];
      }
    }
  }

  /** The loop that fills the preallocated array `Y`, run by run. */
  method AlignOutputs(simOut: SimTable, tVar: string, n: nat) returns (r: Result<seq<real>, Error>)
    requires Rectangular(simOut)
    ensures r == Align(simOut, tVar, n)
  {
    var y := new real[n];
    var sArun := 0;
    while sArun < n
      invariant 0 <= sArun <= n
      invariant AlignFrom(simOut, tVar, n, sArun, y[..sArun]) == Align(simOut, tVar, n)
    {
      if RUN_COLUMN !in simOut.columns {
        return Err(MissingColumn(RUN_COLUMN));
      }
      if tVar !in simOut.columns {
        return Err(MissingColumn(tVar));
      }
      var runs, col := simOut.columns[RUN_COLUMN], simOut.columns[tVar];
      var sArunOut := Matching(runs, col, sArun);
      MatchingHead(runs, col, sArun);
      if |sArunOut| == 0 {
        return Err(NoOutputForRun(sArun));
      }
      ghost var prev := y[..sArun];
      y[sArun] := sArunOut[0];
      assert y[..sArun + 1] == prev + [sArunOut[0]];
      sArun := sArun + 1;
    }
    assert y[..sArun] == y[..];
    r := Ok(y[..]);
  }

  // ---------------------------------------------------------------------
  // Filling `all_morris_indices`

  /** The analysis call for one target variable's output vector. */
  function Request(settings: Sampler.Settings, sample: seq<seq<real>>, y: seq<real>): AnalyzeRequest {
    AnalyzeRequest(settings.problem, sample, y, NUM_RESAMPLES, CONF_LEVEL, false,
                   settings.gridJump, settings.nLevels)
  }

  /** `all_morris_indices[v][date] = ix`. */
  function Put(store: Store, v: string, date: Option<string>, ix: MorrisIndices): Store {
    store[v := (if v in store then store[v] else map[])[date := ix]]
  }

  /** A target file with one output row per run. */
  predicate IsSummary(targetFile: string) {
    Contains(Lower(targetFile), "summary")
  }

  /** A target file with one output row per run and day. */
  predicate IsDaily(targetFile: string) {
    Contains(Lower(targetFile), "daily")
  }

  /** The store after target variables `i..`, starting from `store`. */
  function StoreFrom(settings: Sampler.Settings, sample: seq<seq<real>>, simOut: SimTable, targetFile: string,
                     targetVars: seq<string>, analyze: AnalyzeRequest -> MorrisIndices,
                     i: nat, store: Store): Result<Store, Error>
    requires Rectangular(simOut) && i <= |targetVars|
    decreases |targetVars| - i
  {
    if i == |targetVars| then Ok(store)
    else if !IsSummary(targetFile) then
      StoreFrom(settings, sample, simOut, targetFile, targetVars, analyze, i + 1, store)
    else match Align(simOut, targetVars[i], |sample|)
      case Err(e) => Err(e)
      case Ok(y) => StoreFrom(settings, sample, simOut, targetFile, targetVars, analyze, i + 1,
                             Put(store, targetVars[i], None, analyze(Request(settings, sample, y))))
  }

  /** `all_morris_indices` after the analysis loop. */
  function Stored(settings: Sampler.Settings, sample: seq<seq<real>>, simOut: SimTable, targetFile: string,
                  targetVars: seq<string>, analyze: AnalyzeRequest -> MorrisIndices): Result<Store, Error>
    requires Rectangular(simOut)
  {
    StoreFrom(settings, sample, simOut, targetFile, targetVars, analyze, 0, map[])
  }

  /** The indices the analysis returns for target variable `v`. */
  function Analyzed(settings: Sampler.Settings, sample: seq<seq<real>>, simOut: SimTable, v: string,
                    analyze: AnalyzeRequest -> MorrisIndices): MorrisIndices
    requires Rectangular(simOut) && Align(simOut, v, |sample|).Ok?
  {
    analyze(Request(settings, sample, Align(simOut, v, |sample|).value))
  }

  /** The dates already stored for `v`. */
  function DatesOf(store: Store, v: string): map<Option<string>, MorrisIndices> {
    if v in store then store[v] else map[]
  }

  lemma {:induction false} StoreFromOk(settings: Sampler.Settings, sample: seq<seq<real>>, simOut: SimTable,
                                        targetFile: string, targetVars: seq<string>,
                                        analyze: AnalyzeRequest -> MorrisIndices, i: nat, store: Store)
    requires Rectangular(simOut) && i <= |targetVars| && IsSummary(targetFile)
    ensures StoreFrom(settings, sample, simOut, targetFile, targetVars, analyze, i, store).Ok?
        <==> forall j :: i <= j < |targetVars| ==> Align(simOut, targetVars[j], |sample|).Ok?
    decreases |targetVars| - i
  {
    if i < |targetVars| && Align(simOut, targetVars[i], |sample|).Ok? {
      var store' := Put(store, targetVars[i], None, Analyzed(settings, sample, simOut, targetVars[i], analyze));
      StoreFromOk(settings, sample, simOut, targetFile, targetVars, analyze, i + 1, store');
    }
  }

  lemma {:induction false} StoreFromKeys(settings: Sampler.Settings, sample: seq<seq<real>>, simOut: SimTable,
                                          targetFile: string, targetVars: seq<string>,
                                          analyze: AnalyzeRequest -> MorrisIndices, i: nat, store: Store)
    requires Rectangular(simOut) && i <= |targetVars| && IsSummary(targetFile)
    requires StoreFrom(settings, sample, simOut, targetFile, targetVars, analyze, i, store).Ok?
    ensures StoreFrom(settings, sample, simOut, targetFile, targetVars, analyze, i, store).value.Keys
         == store.Keys + (set j | i <= j < |targetVars| :: targetVars[j])
    decreases |targetVars| - i
  {
    if i < |targetVars| {
      var store' := Put(store, targetVars[i], None, Analyzed(settings, sample, simOut, targetVars[i], analyze));
      StoreFromKeys(settings, sample, simOut, targetFile, targetVars, analyze, i + 1, store');
      assert (set j | i <= j < |targetVars| :: targetVars[j])
          == {targetVars[i]} + (set j | i + 1 <= j < |targetVars| :: targetVars[j]);
    }
  }

  lemma {:induction false} StoreFromUntouched(settings: Sampler.Settings, sample: seq<seq<real>>, simOut: SimTable,
                                               targetFile: string, targetVars: seq<string>,
                                               analyze: AnalyzeRequest -> MorrisIndices, i: nat, store: Store)
    requires Rectangular(simOut) && i <= |targetVars| && IsSummary(targetFile)
    requires StoreFrom(settings, sample, simOut, targetFile, targetVars, analyze, i, store).Ok?
    ensures var m := StoreFrom(settings, sample, simOut, targetFile, targetVars, analyze, i, store).value;
      forall v :: v in store && v !in targetVars[i..] ==> v in m && m[v] == store[v]
    decreases |targetVars| - i
  {
    if i < |targetVars| {
      var v := targetVars[i];
      var store' := Put(store, v, None, Analyzed(settings, sample, simOut, v, analyze));
      StoreFromUntouched(settings, sample, simOut, targetFile, targetVars, analyze, i + 1, store');
      assert targetVars[i..] == [v] + targetVars[i + 1..];
    }
  }

  lemma {:induction false} StoreFromValues(settings: Sampler.Settings, sample: seq<seq<real>>, simOut: SimTable,
                                            targetFile: string, targetVars: seq<string>,
                                            analyze: AnalyzeRequest -> MorrisIndices, i: nat, store: Store)
    requires Rectangular(simOut) && i <= |targetVars| && IsSummary(targetFile)
    requires StoreFrom(settings, sample, simOut, targetFile, targetVars, analyze, i, store).Ok?
    ensures var m := StoreFrom(settings, sample, simOut, targetFile, targetVars, analyze, i, store).value;
      forall j :: i <= j < |targetVars| ==>
        && Align(simOut, targetVars[j], |sample|).Ok?
        && targetVars[j] in m
        && m[targetVars[j]]
           == DatesOf(store, targetVars[j])[None := Analyzed(settings, sample, simOut, targetVars[j], analyze)]
    decreases |targetVars| - i
  {
    if i < |targetVars| {
      var v := targetVars[i];
      var ix := Analyzed(settings, sample, simOut, v, analyze);
      var store' := Put(store, v, None, ix);
      StoreFromValues(settings, sample, simOut, targetFile, targetVars, analyze, i + 1, store');
      var m := StoreFrom(settings, sample, simOut, targetFile, targetVars, analyze, i, store).value;
      assert m == StoreFrom(settings, sample, simOut, targetFile, targetVars, analyze, i + 1, store').value;
      if v !in targetVars[i + 1..] {
        StoreFromUntouched(settings, sample, simOut, targetFile, targetVars, analyze, i + 1, store');
      }
      forall j | i <= j < |targetVars|
        ensures && Align(simOut, targetVars[j], |sample|).Ok?
                && targetVars[j] in m
                && m[targetVars[j]]
                   == DatesOf(store, targetVars[j])[None := Analyzed(settings, sample, simOut, targetVars[j], analyze)]
      {
        var w := targetVars[j];
        if j > i {
          if w == v {
            assert DatesOf(store', w)[None := ix] == DatesOf(store, w)[None := ix];
          }
        } else if w in targetVars[i + 1..] {
          var j' :| i + 1 <= j' < |targetVars| && targetVars[j'] == w;
          assert DatesOf(store', w)[None := ix] == DatesOf(store, w)[None := ix];
        }
      }
    }
  }

  /** For a summary file the store holds exactly the target variables, each
      with its indices under the date None, computed from that variable's
      aligned outputs with the fixed analysis arguments; it fails exactly when
      some variable's outputs cannot be aligned. */
  lemma SummaryStore(settings: Sampler.Settings, sample: seq<seq<real>>, simOut: SimTable, targetFile: string,
                     targetVars: seq<string>, analyze: AnalyzeRequest -> MorrisIndices)
    requires Rectangular(simOut) && IsSummary(targetFile)
    ensures var r := Stored(settings, sample, simOut, targetFile, targetVars, analyze);
      && (r.Ok? <==> forall j :: 0 <= j < |targetVars| ==> Align(simOut, targetVars[j], |sample|).Ok?)
      && (r.Ok? ==> r.value.Keys == set j | 0 <= j < |targetVars| :: targetVars[j])
      && (r.Ok? ==> forall j :: 0 <= j < |targetVars| ==>
            r.value[targetVars[j]]
              == map[None := analyze(AnalyzeRequest(settings.problem, sample,
                                                    Align(simOut, targetVars[j], |sample|).value,
                                                    1000, 0.95, false, settings.gridJump, settings.nLevels))])
  {
    StoreFromOk(settings, sample, simOut, targetFile, targetVars, analyze, 0, map[]);
    if Stored(settings, sample, simOut, targetFile, targetVars, analyze).Ok? {
      StoreFromKeys(settings, sample, simOut, targetFile, targetVars, analyze, 0, map[]);
      StoreFromValues(settings, sample, simOut, targetFile, targetVars, analyze, 0, map[]);
    }
  }

  lemma {:induction false} StoreFromOther(settings: Sampler.Settings, sample: seq<seq<real>>, simOut: SimTable,
                                           targetFile: string, targetVars: seq<string>,
                                           analyze: AnalyzeRequest -> MorrisIndices, i: nat, store: Store)
    requires Rectangular(simOut) && i <= |targetVars| && !IsSummary(targetFile)
    ensures StoreFrom(settings, sample, simOut, targetFile, targetVars, analyze, i, store) == Ok(store)
    decreases |targetVars| - i
  {
    if i < |targetVars| {
      StoreFromOther(settings, sample, simOut, targetFile, targetVars, analyze, i + 1, store);
    }
  }

  /** A file that is not a summary file, daily ones included, stores nothing
      and raises nothing: the results table then holds only its header. */
  lemma OtherFilesStoreNothing(settings: Sampler.Settings, sample: seq<seq<real>>, simOut: SimTable,
                               targetFile: string, targetVars: seq<string>, analyze: AnalyzeRequest -> MorrisIndices)
    requires Rectangular(simOut) && !IsSummary(targetFile)
    ensures Stored(settings, sample, simOut, targetFile, targetVars, analyze) == Ok(map[])
  {
    StoreFromOther(settings, sample, simOut, targetFile, targetVars, analyze, 0, map[]);
  }

  /** The analysis loop over the target variables. */
  method ComputeIndices(settings: Sampler.Settings, sample: seq<seq<real>>, simOut: SimTable, targetFile: string,
                        targetVars: seq<string>, analyze: AnalyzeRequest -> MorrisIndices)
    returns (r: Result<Store, Error>)
    requires Rectangular(simOut)
    ensures r == Stored(settings, sample, simOut, targetFile, targetVars, analyze)
  {
    var allMorrisIndices: Store := map[];
    var i := 0;
    while i < |targetVars|
      invariant 0 <= i <= |targetVars|
      invariant StoreFrom(settings, sample, simOut, targetFile, targetVars, analyze, i, allMorrisIndices)
             == Stored(settings, sample, simOut, targetFile, targetVars, analyze)
    {
      var tVar := targetVars[i];
      if IsSummary(targetFile) {
        var date: Option<string> := None;
        var y := AlignOutputs(simOut, tVar, |sample|);
        if y.Err? {
          return Err(y.error);
        }
        var morrisIndices := analyze(AnalyzeRequest(settings.problem, sample, y.value, NUM_RESAMPLES, CONF_LEVEL,
                                                    false, settings.gridJump, settings.nLevels));
        allMorrisIndices := Put(allMorrisIndices, tVar, date, morrisIndices);
      } else if IsDaily(targetFile) {
        // one output per run and day: not handled, nothing is stored
      }
      i := i + 1;
    }
    r := Ok(allMorrisIndices);
  }

  // ---------------------------------------------------------------------
  // The results table

  /** The csv cell of a date: the csv writer writes None as an empty cell. */
  function DateCell(date: Option<string>): string {
    match date
    case None => ""
    case Some(d) => d
  }

  /** Statistic `name` has an entry for parameter `p`. */
  predicate HasStatAt(ix: MorrisIndices, name: string, p: nat) {
    name in ix.stats && p < |ix.stats[name]|
  }

  /** Every statistic has an entry for parameter `p`. */
  predicate HasRow(ix: MorrisIndices, p: nat) {
    && HasStatAt(ix, "mu", p)
    && HasStatAt(ix, "mu_star", p)
    && HasStatAt(ix, "mu_star_conf", p)
    && HasStatAt(ix, "sigma", p)
  }

  /** Every parameter can be written: no lookup of a statistic fails. */
  predicate Complete(ix: MorrisIndices) {
    forall p :: 0 <= p < |ix.names| ==> HasRow(ix, p)
  }

  /** The results row of parameter `p`. */
  function RowOf(v: string, date: Option<string>, ix: MorrisIndices, p: nat, py: Builtins): seq<string>
    requires p < |ix.names| && HasRow(ix, p)
  {
    [v, DateCell(date), ix.names[p],
     py.csvFloat(ix.stats["mu"][p]), py.csvFloat(ix.stats["mu_star"][p]),
     py.csvFloat(ix.stats["mu_star_conf"][p]), py.csvFloat(ix.stats["sigma"][p])]
  }

  /** The results rows of one `(variable, date)` entry, one per parameter in
      the order of the indices' names. */
  function GroupOf(v: string, date: Option<string>, ix: MorrisIndices, py: Builtins): seq<seq<string>>
    requires Complete(ix)
  {
    seq(|ix.names|, p requires 0 <= p < |ix.names| && Complete(ix) => RowOf(v, date, ix, p, py))
  }

  /** The rows written for one entry, built cell by cell over the statistic
      names: one row per parameter name, in order, each holding the variable,
      the date, the name and the four statistics in the header's order. */
  method EmitGroup(v: string, date: Option<string>, ix: MorrisIndices, py: Builtins)
    returns (r: Result<seq<seq<string>>, Error>)
    ensures r.Ok? <==> Complete(ix)
    ensures r.Ok? ==> |r.value| == |ix.names|
    ensures r.Ok? ==> forall p :: 0 <= p < |ix.names| ==>
              && |r.value[p]| == |HEADER|
              && r.value[p] == RowOf(v, date, ix, p, py)
    ensures r.Ok? ==> r.value == GroupOf(v, date, ix, py)
  {
    var rows: seq<seq<string>> := [];
    var pId := 0;
    while pId < |ix.names|
      invariant 0 <= pId <= |ix.names| && |rows| == pId
      invariant forall p :: 0 <= p < pId ==> HasRow(ix, p) && rows[p] == RowOf(v, date, ix, p, py)
    {
      var row := [v, DateCell(date), ix.names[pId]];
      var q := 0;
      while q < |IDX_NAMES|
        invariant 0 <= q <= |IDX_NAMES| && |row| == 3 + q
        invariant row[..3] == [v, DateCell(date), ix.names[pId]]
        invariant forall t :: 0 <= t < q ==>
                    HasStatAt(ix, IDX_NAMES[t], pId) && row[3 + t] == py.csvFloat(ix.stats[IDX_NAMES[t]][pId])
      {
        var idx := IDX_NAMES[q];
        if idx !in ix.stats || pId >= |ix.stats[idx]| {
          assert !HasRow(ix, pId) by {
            assert q == 0 || q == 1 || q == 2 || q == 3;
          }
          return Err(IncompleteIndices(v));
        }
        row := row + [py.csvFloat(ix.stats[idx][pId])];
        q := q + 1;
      }
      assert HasStatAt(ix, IDX_NAMES[0], pId) && HasStatAt(ix, IDX_NAMES[1], pId);
      assert HasStatAt(ix, IDX_NAMES[2], pId) && HasStatAt(ix, IDX_NAMES[3], pId);
      assert row == RowOf(v, date, ix, pId, py);
      rows := rows + [row];
      pId := pId + 1;
    }
    r := Ok(rows);
  }

  /** A `(variable, date)` key of the store. */
  type Entry = (string, Option<string>)

  predicate InStore(store: Store, e: Entry) {
    e.0 in store && e.1 in store[e.0]
  }

  /** `e` is an entry of the store and every one of its rows can be written. */
  predicate Writable(store: Store, e: Entry) {
    InStore(store, e) && Complete(store[e.0][e.1])
  }

  predicate AllWritable(order: seq<Entry>, store: Store) {
    forall k :: 0 <= k < |order| ==> Writable(store, order[k])
  }

  predicate Distinct(order: seq<Entry>) {
    forall k, l :: 0 <= k < l < |order| ==> order[k] != order[l]
  }

  /** `order` lists every entry of the store exactly once. */
  ghost predicate Enumerates(order: seq<Entry>, store: Store) {
    && (forall k :: 0 <= k < |order| ==> InStore(store, order[k]))
    && (forall v, d :: v in store && d in store[v] ==> (v, d) in order)
    && Distinct(order)
  }

  /** Every entry of the store can be written. */
  ghost predicate AllComplete(store: Store) {
    forall v, d :: v in store && d in store[v] ==> Complete(store[v][d])
  }

  function GroupAt(store: Store, e: Entry, py: Builtins): seq<seq<string>>
    requires Writable(store, e)
  {
    GroupOf(e.0, e.1, store[e.0][e.1], py)
  }

  /** The rows of the entries in `order`, one group after the other. */
  function Concat(order: seq<Entry>, store: Store, py: Builtins): seq<seq<string>>
    requires AllWritable(order, store)
  {
    if order == [] then [] else GroupAt(store, order[0], py) + Concat(order[1..], store, py)
  }

  lemma {:induction false} ConcatSnoc(order: seq<Entry>, e: Entry, store: Store, py: Builtins)
    requires AllWritable(order, store) && Writable(store, e)
    ensures AllWritable(order + [e], store)
    ensures Concat(order + [e], store, py) == Concat(order, store, py) + GroupAt(store, e, py)
  {
    assert AllWritable(order + [e], store) by {
      forall k | 0 <= k < |order + [e]|
        ensures Writable(store, (order + [e])[k])
      {
        if k < |order| {
          assert (order + [e])[k] == order[k];
        }
      }
    }
    if order != [] {
      assert (order + [e])[1..] == order[1..] + [e];
      ConcatSnoc(order[1..], e, store, py);
    } else {
      assert Concat([e][1..], store, py) == [];
    }
  }

  /** Appending an entry's group to the table of `order` gives the table of
      `order` followed by that entry. */
  lemma AppendGroup(rows: seq<seq<string>>, order: seq<Entry>, e: Entry, g: seq<seq<string>>,
                    store: Store, py: Builtins)
    requires AllWritable(order, store) && Writable(store, e)
    requires rows == [HEADER] + Concat(order, store, py)
    requires g == GroupAt(store, e, py)
    ensures AllWritable(order + [e], store)
    ensures rows + g == [HEADER] + Concat(order + [e], store, py)
  {
    ConcatSnoc(order, e, store, py);
    assert ([HEADER] + Concat(order, store, py)) + g == [HEADER] + (Concat(order, store, py) + g);
  }

  /** The group of the `k`th entry starts right after the groups before it. */
  lemma {:induction false} ConcatSplit(order: seq<Entry>, k: nat, store: Store, py: Builtins)
    requires k < |order| && AllWritable(order, store)
    ensures AllWritable(order[..k], store)
    ensures BlockAt(Concat(order, store, py), |Concat(order[..k], store, py)|, GroupAt(store, order[k], py))
  {
    if k > 0 {
      ConcatSplit(order[1..], k - 1, store, py);
      assert order[1..][..k - 1] == order[..k][1..];
      var g0 := GroupAt(store, order[0], py);
      var rest := Concat(order[1..], store, py);
      var before := Concat(order[1..][..k - 1], store, py);
      var g := GroupAt(store, order[k], py);
      assert Concat(order[..k], store, py) == g0 + before;
      assert rest[|before|..|before| + |g|] == g;
      assert (g0 + rest)[|g0| + |before|..|g0| + |before| + |g|] == g;
    } else {
      assert Concat(order[..0], store, py) == [];
    }
  }

  /** `rows` holds `block` as consecutive rows starting at row `s`. */
  predicate BlockAt(rows: seq<seq<string>>, s: nat, block: seq<seq<string>>) {
    s + |block| <= |rows| && rows[s..s + |block|] == block
  }

  /** `rows` is the results table of `store`: the header, then each entry's
      group of rows, the entries in some order that lists each entry once.
      This admits more orders than the script's nested walk of its two dicts
      can produce (one variable's dates split by another variable's block);
      the two coincide on the stores the analysis builds, where each variable
      has the single date `None`. */
  ghost predicate IsResultsTable(rows: seq<seq<string>>, store: Store, py: Builtins) {
    exists order :: Enumerates(order, store) && AllWritable(order, store) && rows == [HEADER] + Concat(order, store, py)
  }

  /** Every entry of the store appears in the results table, after the header,
      as one block of consecutive rows: one row per parameter name, in name
      order. */
  lemma EveryEntryWritten(rows: seq<seq<string>>, store: Store, py: Builtins, v: string, d: Option<string>)
    requires v in store && d in store[v] && Complete(store[v][d])
    requires IsResultsTable(rows, store, py)
    ensures exists s :: 1 <= s && BlockAt(rows, s, GroupOf(v, d, store[v][d], py))
  {
    var order :| Enumerates(order, store) && AllWritable(order, store) && rows == [HEADER] + Concat(order, store, py);
    var k :| 0 <= k < |order| && order[k] == (v, d);
    ConcatSplit(order, k, store, py);
    var c := Concat(order, store, py);
    var s := |Concat(order[..k], store, py)|;
    var g := GroupAt(store, order[k], py);
    assert c[s..s + |g|] == g;
    assert rows[1 + s..1 + s + |g|] == c[s..s + |g|];
    assert BlockAt(rows, 1 + s, g);
  }

  /** A second entry of a listing is one of its entries. Stated as a lemma so
      that the refuted case below ends in a literal `assert false`. */
  lemma SecondOf(order: seq<Entry>)
    requires |order| > 1
    ensures order[1] in order
  {
  }

  /** With one summary entry, the results table is the header and exactly one
      row per parameter. */
  lemma SingleEntryTable(rows: seq<seq<string>>, v: string, ix: MorrisIndices, py: Builtins)
    requires Complete(ix)
    requires IsResultsTable(rows, map[v := map[None := ix]], py)
    ensures rows == [HEADER] + GroupOf(v, None, ix, py)
    ensures |rows| == 1 + |ix.names|
  {
    var store := map[v := map[None := ix]];
    var order :| Enumerates(order, store) && AllWritable(order, store) && rows == [HEADER] + Concat(order, store, py);
    assert (v, None) in order;
    forall k | 0 <= k < |order|
      ensures order[k] == (v, None)
    {
      assert InStore(store, order[k]);
    }
    assert order[0] == (v, None);
    if |order| > 1 {
      SecondOf(order);
      assert false;
    }
    assert order == [(v, None)];
    assert Concat(order[1..], store, py) == [];
  }

  /** The entries written so far: those of the variables outside `vars`, and
      those of variable `v` whose date is no longer in `dates`, each once. */
  ghost predicate WrittenSoFar(store: Store, vars: set<string>, v: string, dates: set<Option<string>>,
                               order: seq<Entry>) {
    && v in store && AllWritable(order, store) && Distinct(order)
    && (forall k :: 0 <= k < |order| ==> order[k].0 !in vars || (order[k].0 == v && order[k].1 !in dates))
    && (forall w, d :: w in store && w !in vars && d in store[w] ==> (w, d) in order)
    && (forall d :: d in store[v] && d !in dates ==> (v, d) in order)
  }

  lemma WriteStep(store: Store, vars: set<string>, v: string, dates: set<Option<string>>, order: seq<Entry>,
                  d: Option<string>)
    requires v in vars && WrittenSoFar(store, vars, v, dates, order)
    requires d in dates && Writable(store, (v, d))
    ensures WrittenSoFar(store, vars, v, dates - {d}, order + [(v, d)])
  {
  }

  /** The rows of every date of variable `v`, appended after the rows of the
      variables already written (those outside `vars`). */
  method WriteDates(store: Store, v: string, vars: set<string>, rows0: seq<seq<string>>,
                    ghost order0: seq<Entry>, py: Builtins)
    returns (r: Result<seq<seq<string>>, Error>, ghost order: seq<Entry>)
    requires v in vars && vars <= store.Keys
    requires WrittenSoFar(store, vars, v, store[v].Keys, order0)
    requires rows0 == [HEADER] + Concat(order0, store, py)
    ensures r.Err? ==> !AllComplete(store)
    ensures r.Ok? ==> WrittenSoFar(store, vars, v, {}, order) && r.value == [HEADER] + Concat(order, store, py)
  {
    var rows := rows0;
    order := order0;
    var dates := store[v].Keys;
    while dates != {}
      invariant dates <= store[v].Keys
      invariant WrittenSoFar(store, vars, v, dates, order)
      invariant rows == [HEADER] + Concat(order, store, py)
      decreases dates
    {
      var d :| d in dates;
      var g := EmitGroup(v, d, store[v][d], py);
      if g.Err? {
        return Err(g.error), order;
      }
      WriteStep(store, vars, v, dates, order, d);
      AppendGroup(rows, order, (v, d), g.value, store, py);
      rows := rows + g.value;
      order := order + [(v, d)];
      dates := dates - {d};
    }
    r := Ok(rows);
  }

  /** Writing the results file: the header, then for each variable and each of
      its dates the rows of that entry. */
  method WriteIndices(store: Store, py: Builtins) returns (r: Result<seq<seq<string>>, Error>)
    ensures r.Ok? <==> AllComplete(store)
    ensures r.Ok? ==> IsResultsTable(r.value, store, py)
  {
    var rows: seq<seq<string>> := [HEADER];
    ghost var order: seq<Entry> := [];
    var vars := store.Keys;
    while vars != {}
      invariant vars <= store.Keys
      invariant AllWritable(order, store) && Distinct(order)
      invariant forall k :: 0 <= k < |order| ==> order[k].0 !in vars
      invariant forall w, d :: w in store && w !in vars && d in store[w] ==> (w, d) in order
      invariant rows == [HEADER] + Concat(order, store, py)
      decreases vars
    {
      var v :| v in vars;
      assert WrittenSoFar(store, vars, v, store[v].Keys, order);
      var written;
      written, order := WriteDates(store, v, vars, rows, order, py);
      if written.Err? {
        return Err(written.error);
      }
      rows := written.value;
      vars := vars - {v};
    }
    assert Enumerates(order, store);
    r := Ok(rows);
  }

  /** The script after loading: the indices of every target variable, then the
      results table and the name of the file it goes to. */
  method RunAnalysis(settings: Sampler.Settings, sample: seq<seq<real>>, simOut: SimTable, targetFile: string,
                     targetVars: seq<string>, analyze: AnalyzeRequest -> MorrisIndices, py: Builtins)
    returns (outFile: string, r: Result<seq<seq<string>>, Error>)
    requires Rectangular(simOut)
    ensures outFile == RESULTS_PREFIX + targetFile
    ensures var s := Stored(settings, sample, simOut, targetFile, targetVars, analyze);
      && (s.Err? ==> r == Err(s.error))
      && (s.Ok? ==> (r.Ok? <==> AllComplete(s.value)))
      && (s.Ok? && r.Ok? ==> IsResultsTable(r.value, s.value, py))
  {
    var store := ComputeIndices(settings, sample, simOut, targetFile, targetVars, analyze);
    outFile := RESULTS_PREFIX + targetFile;
    if store.Err? {
      return outFile, Err(store.error);
    }
    r := WriteIndices(store.value, py);
  }
}
