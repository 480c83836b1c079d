# SIMPLACE Morris sensitivity analysis, modelled in Dafny

Two scripts drive a Morris (elementary-effects) sensitivity analysis of the
SIMPLACE crop model.

The **sampler**:

- reads a table of parameter bounds (`user_SA_params.csv`);
- builds the problem definition and the fixed sampling settings;
- asks the SALib library for the sample matrix;
- writes a run-details table;
- renders one `<SArun>` block per sampled run from an XML template of
  `<parameter>` elements. Each element gets either its whole text replaced or
  one of its `<value>` children for tabulated (`_where_`) parameters.

The **analyzer**:

- aligns the simulator's summary output to the runs;
- hands each target variable's output vector to SALib's Morris analysis;
- keeps the indices by variable and date;
- flattens them into the `Indices_<target file>` table, with one row per
  parameter.

The project has three modules, one per file:

- `pytext.dfy` (`PyText`): the Python built-ins the scripts rely on.
  - `int()`, `float()`, `str()` and the csv writer's rendering of a float are
    the uninterpreted fields of `Builtins`.
  - It also defines substring search, `split(sep)[0]`, ASCII `lower()`, and
    list indexing with negative indices.
- `sampler.dfy` (`Sampler`): `SIMPLACE_morris_sampler.py`.
  - The module-level lists `p_names`, `p_bounds` and `p_where` are the fields
    of class `Session`.
  - `SA_settings` and `sample` are methods on it that extend or read those
    lists.
  - The loops of `custom_params` and of the run rendering are methods proved
    against fold functions (`Customized`, `Targets`, `RenderAll`).
  - The lemmas about those functions state the scripts' behaviour.
- `analyzer.dfy` (`Analyzer`): `SIMPLACE_morris_analyzer.py`.
  - `Y` is filled in a preallocated array.
  - The analysis loop fills `all_morris_indices` (a `Store`).
  - Writing walks the two nested dicts in an order the model leaves open.
  - The result is specified by `IsResultsTable`: the header, then each
    `(variable, date)` entry's rows as one block, in some order that lists
    every entry once. For the stores the analysis builds, each variable has
    the single date `None`, so these orders are exactly the dict walks.

The two SALib calls are function parameters, `sampler: SampleRequest -> …`
and `analyze: AnalyzeRequest -> …`. Their request records pin down the
constant arguments:

- `local_optimization=False` for sampling;
- `num_resamples=1000`, `conf_level=0.95` and `print_to_console=False` for
  the analysis;
- `grid_jump` and `num_levels` taken from the settings.

Every `exit()` of the scripts is an `Err` of the module's `Error` type, and
so is every exception on the paths the model covers:

- a short bounds row or an unparsable bound;
- a sampled value without a name in `p_names`;
- a missing `<value>` child;
- a missing output column or a run without output;
- a missing statistic in the indices.

## Model

| member | source | states |
|---|---|---|
| `PyText.SplitHeadSpec` | SIMPLACE_morris_sampler.py:143 | `split(sep)[0]` is the prefix before the first occurrence of `sep`: no occurrence starts inside it; it is the whole string exactly when `sep` does not occur; otherwise `sep` follows it. |
| `PyText.Lower` | SIMPLACE_morris_analyzer.py:51 | `lower()` keeps the length, leaves no ASCII capital, changes nothing else, and maps each capital to its lower-case letter. |
| `PyText.PyIndex` | SIMPLACE_morris_sampler.py:121-122 | A list index is valid exactly when `-n <= i < n`. A negative index counts from the end. |
| `Sampler.ParseRow` | SIMPLACE_morris_sampler.py:29-37 | A bounds row parses exactly when it has four fields and both bounds are floats. An unparsable or missing index field makes the parameter scalar. A tabulated key is `name + "_where_" + str(index)`. Each error case is stated in the order the code raises it. |
| `Sampler.FirstWhereOfKey` | SIMPLACE_morris_sampler.py:34 | In a tabulated key the first `_where_` is the one the sampler inserted, provided the name holds no `_where_` and does not end in `_where`. |
| `Sampler.BaseNameOfKey` | SIMPLACE_morris_sampler.py:143 | Splitting a key on `_where_` gives back the parameter's name under the same two conditions. |
| `Sampler.BaseNameOfSuffixedKey` | SIMPLACE_morris_sampler.py:143 | Without the second condition the round trip fails: the name `a_where` holds no `_where_`, yet its tabulated key splits back to `a`. |
| `Sampler.BaseNameOfEveryKey` | SIMPLACE_morris_sampler.py:143-147 | Cutting the `_where_<index>` suffix, using the parameter's own table index `p_where[idx]`, gives back every parameter's name. |
| `Sampler.SuffixedKeyKeepsName` | SIMPLACE_morris_sampler.py:143 | On the key of `a_where`, cutting the suffix keeps `a_where`, where the split gives `a`. |
| `Sampler.RunDetails` | SIMPLACE_morris_sampler.py:84-88 | The run-details table is the header `run_ID` plus the keys, then one row per run: the run number, then the run's values. |
| `Sampler.Substitute` | SIMPLACE_morris_sampler.py:118-122 | Without a table index, the element's whole text becomes `str(value)`. With one, exactly the indexed `<value>` child changes. The call fails exactly when there is no such child. The id is kept. |
| `Sampler.SubstituteFromSpec` | SIMPLACE_morris_sampler.py:111-123 | The substitution fold succeeds exactly when every remaining element applies. It extends its accumulator element by element, and an error comes from an element that does not apply. |
| `Sampler.CustomizedSpec` | SIMPLACE_morris_sampler.py:111-123 | `custom_params` returns the template's elements in order, with their ids, each substituted with its target. It aborts when a template id is not targeted. |
| `Sampler.CustomParams` | SIMPLACE_morris_sampler.py:93-123 | The element-by-element loop over the copied template computes `Customized`. |
| `Sampler.TargetsFromOk` | SIMPLACE_morris_sampler.py:142-146 | Collecting a run's targets succeeds exactly when every value has a key and every key's base name is a template id. |
| `Sampler.TargetsFromKeys` | SIMPLACE_morris_sampler.py:142-148 | The target map's keys are the starting keys plus the base names of the keys. |
| `Sampler.TargetsFromValues` | SIMPLACE_morris_sampler.py:147-148 | A name never written keeps its old target. A written name holds its last write. |
| `Sampler.TargetsSpec` | SIMPLACE_morris_sampler.py:139-148 | A run's target map: the Ok-iff condition, the keys `{SArun}` plus the base names, the last write for each name, and the run number under `SArun` unless a key's base name is `SArun`. |
| `Sampler.SharedBaseLastWins` | SIMPLACE_morris_sampler.py:147-148 | Two keys with the same base name write one entry, and the later write wins. |
| `Sampler.BuildTargets` | SIMPLACE_morris_sampler.py:139-148 | The loop that fills `target_params` computes `Targets`. |
| `Sampler.RenderFromSpec` | SIMPLACE_morris_sampler.py:136-152 | The rendering fold succeeds exactly when every remaining run renders, and it appends one wrapper per run. |
| `Sampler.RenderAllSpec` | SIMPLACE_morris_sampler.py:136-152 | Rendering succeeds exactly when every run renders. The result holds one `SArun` wrapper per run, in run order, with that run's elements. |
| `Sampler.UnknownNameAborts` | SIMPLACE_morris_sampler.py:144-146 | A key whose base name is not a template id aborts the whole rendering. |
| `Sampler.UntargetedIdAborts` | SIMPLACE_morris_sampler.py:113-117 | A template element (other than `SArun`) that no key of a run targets aborts the whole rendering. |
| `Sampler.RenderedRun` | SIMPLACE_morris_sampler.py:139-149 | A rendered run keeps the template's ids in order. Its `SArun` element holds the run number. Each named element carries its last write. |
| `Sampler.RenderRuns` | SIMPLACE_morris_sampler.py:129-152 | The nested loops that fill the `SArun` tags compute `RenderAll`. |
| `Sampler.Session.constructor` | SIMPLACE_morris_sampler.py:13-15 | The three module-level lists start empty. |
| `Sampler.Session.SASettings` | SIMPLACE_morris_sampler.py:22-57 | The lists keep their old prefix and gain one parsed entry per data row, in lockstep. The call succeeds exactly when every data row was appended; otherwise the error is the failing row's parse error. The settings are `10, None, 4, 2`, with the problem built from the lists and no groups. |
| `Sampler.Session.Sample` | SIMPLACE_morris_sampler.py:59-159 | The sample is the sampler applied to the settings with `local_optimization=False`. The details table and the rendered runs are those of that sample and the session's lists. |
| `Sampler.SamplerScript` | SIMPLACE_morris_sampler.py:174-175 | The whole script: a parse error stops it before sampling. Otherwise the problem has one name and bound pair per data row, the constants reach the sampler, and the details and rendering meet their specifications. |
| `Analyzer.FirstRow` | SIMPLACE_morris_analyzer.py:56-57 | Returns the least row whose run column holds the run, or `None` when no row does. |
| `Analyzer.MatchingHead` | SIMPLACE_morris_analyzer.py:56-57 | `values[0]` of the cells matching a run exists exactly when some row matches, and it is the target cell of the first matching row. |
| `Analyzer.AlignFromSpec` | SIMPLACE_morris_analyzer.py:54-57 | The alignment fold succeeds exactly when both columns exist and every remaining run has a row. It extends its accumulator with each run's first-row value. |
| `Analyzer.AlignSpec` | SIMPLACE_morris_analyzer.py:54-57 | `Y` has one entry per run, and entry `k` is the target value of the first row of run `k`. It fails when a run has no row or a column is missing. With no runs it reads nothing. |
| `Analyzer.AlignOutputs` | SIMPLACE_morris_analyzer.py:54-57 | The loop that fills the preallocated `Y` computes `Align`. |
| `Analyzer.StoreFromOk` | SIMPLACE_morris_analyzer.py:49-59 | For a summary file, the analysis loop succeeds exactly when every remaining variable's outputs align. |
| `Analyzer.StoreFromKeys` | SIMPLACE_morris_analyzer.py:49-59 | The store's variables are the old ones plus the remaining target variables. |
| `Analyzer.StoreFromUntouched` | SIMPLACE_morris_analyzer.py:59 | A variable that is not analysed keeps its entries. |
| `Analyzer.StoreFromValues` | SIMPLACE_morris_analyzer.py:58-59 | Each analysed variable gets its indices under the date `None`, computed from its aligned outputs; its other dates are kept. |
| `Analyzer.SummaryStore` | SIMPLACE_morris_analyzer.py:49-59 | For a summary file, the store is exactly the target variables, each mapped to `{None: analyze(problem, X, Y, 1000, 0.95, False, grid_jump, n_levels)}`. It fails exactly when some variable cannot be aligned. |
| `Analyzer.StoreFromOther` | SIMPLACE_morris_analyzer.py:61-63 | For any other file, the loop leaves the store as it is. |
| `Analyzer.OtherFilesStoreNothing` | SIMPLACE_morris_analyzer.py:61-63 | A file that is not a summary file, daily files included, stores nothing and raises nothing. |
| `Analyzer.ComputeIndices` | SIMPLACE_morris_analyzer.py:49-64 | The loop over the target variables computes `Stored`. |
| `Analyzer.EmitGroup` | SIMPLACE_morris_analyzer.py:78-82 | One entry's rows succeed exactly when every statistic has an entry for every parameter. There is one row per name, in the names' order. Each row is `var, date ("" for None), name, mu, mu_star, mu_star_conf, sigma`, seven cells like the header. |
| `Analyzer.WriteDates` | SIMPLACE_morris_analyzer.py:77-82 | Appending one variable's dates keeps the table equal to the header plus the blocks written so far. Every date of that variable ends up written once. |
| `Analyzer.WriteIndices` | SIMPLACE_morris_analyzer.py:69-82 | Writing the table succeeds exactly when every entry is complete. The result is the header followed by every entry's block, each entry once. |
| `Analyzer.EveryEntryWritten` | SIMPLACE_morris_analyzer.py:76-82 | Every entry of the store appears after the header as one block of consecutive rows. |
| `Analyzer.SingleEntryTable` | SIMPLACE_morris_analyzer.py:71-82 | With one summary entry, the table is the header plus exactly one row per parameter. |
| `Analyzer.RunAnalysis` | SIMPLACE_morris_analyzer.py:49-82 | The output file is `"Indices_" + target_file`. An analysis error stops the run. Otherwise the table is written exactly when every entry is complete, and it is a results table of the store. |

## Left out

- SALib's `morris.sample` and `morris.analyze` are parameters. The model
  fixes the arguments they receive, not what they compute. The `names` key of
  the analysis result is the `names` field of `MorrisIndices`.
- `int()`, `float()`, `str()` and the csv module's rendering of a float are
  uninterpreted (`Builtins`). Through this the model covers only which
  strings parse, not how.
- File I/O is left out: reading the csv files (`csv.reader`,
  `pandas.read_csv`), parsing the template and pretty-printing the tree
  (BeautifulSoup), pickling, and writing files. The model takes and returns
  the rows, elements and tables.
- Date-and-time stamps in file names, and all `print` messages, are left out.
- `clean_folder` (SIMPLACE_morris_sampler.py:161-172) is left out. It deletes
  files and returns nothing.
- A failure leaves a partly written file behind: the analyzer's results file
  is opened before its rows, and the sampler's pickles and run-details file
  come before the rendering. The model returns `Err` and no partial output.
- `Lower` handles ASCII letters only.
- The XML tree is a list of values. The identity and aliasing of
  BeautifulSoup tags, and the move that `append` performs on an element,
  are not modelled. `deepcopy` is a value copy.
- The order in which Python 2 dicts are walked is left open: any order that
  lists every entry once is allowed. This admits orders that no nested walk
  of the two dicts produces, where one variable's dates are split by another
  variable's block. It makes no difference for the stores the analysis
  builds, because they hold only the date `None`.
- The simulator's output columns are numbers, and a table whose columns
  differ in length is excluded (a DataFrame's columns always have equal
  length). Non-numeric cells are not modelled.
- A bounds row that fails to parse after its name field was read: the code
  has already appended that row's key to `p_names` before it raises
  (SIMPLACE_morris_sampler.py:35-36), so for a moment `p_names` is one entry
  longer than `p_bounds` and `p_where`. The model appends nothing for that
  row, and its `Session.Valid()` never lets the lists differ in length. An
  empty row raises at `row[0]` (line 34) before the append, as in the model.
  The run stops either way.
- A `<parameter>` element without an `id` attribute, which raises a
  KeyError at SIMPLACE_morris_sampler.py:113 and :130, is not modelled: every
  `Element` has an id.
- Daily files (SIMPLACE_morris_analyzer.py:61-64) are left unhandled by the
  code: it stores nothing and raises nothing, and its TODO leaves open what
  it should do. The model follows the code (`OtherFilesStoreNothing`).
- Sampler.SamplerScript: where the script exits on a bad bounds row, the
  model returns the parse error and empty sample, details and rendering.

## Findings

| source | as written | input that shows it | evidently intended | confidence | as-written member | corrected member |
|---|---|---|---|---|---|---|
| SIMPLACE_morris_sampler.py:143 | The base name is `p_names[idx].split("_where_")[0]`, cut at the FIRST `_where_`. | The tabulated parameter `a_where` with index 3 has the key `a_where_where_3`, which splits to `a`. The run then aborts at lines 144-146, or writes its value into `a`'s target. | The key's own parameter name comes back for every name. | not executed | `Sampler.BaseNameOfSuffixedKey` | `Sampler.BaseNameOfEveryKey` |

`Sampler.BaseNameOfKey` states the names for which the split as written is
safe: names without `_where_` and, for tabulated parameters, not ending in
`_where`. `Targets` and everything built on it keep the split as line 143
writes it, so their rows describe the code as it runs. The corrected
`BaseNameOf` cuts the suffix using `p_where[idx]`; `SuffixedKeyKeepsName`
contrasts the two on the counterexample.
