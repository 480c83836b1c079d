/** The sampler script: the bounds table becomes the Morris problem
    definition and its run settings; the sample matrix drawn for it becomes a
    run-details table and, run by run, one `SArun` block of the simulator's
    parameter file, made by substituting the run's sampled values into a copy
    of the template's `parameter` elements. */
module Sampler {
  import opened PyText

  /** Separates a parameter name from its table index in a parameter key. */
  const WHERE: string := "_where_"
  /** The template parameter that receives the run number. */
  const RUN_PARAM: string := "SArun"
  const RUN_ID_HEADER: string := "run_ID"
  const N_TRAJECTORIES: nat := 10
  const N_LEVELS: nat := 4
  const GRID_JUMP: nat := 2

  datatype Bounds = Bounds(lo: real, hi: real)

  /** The problem definition handed to the sensitivity-analysis library. */
  datatype Problem = Problem(numVars: nat, names: seq<string>, bounds: seq<Bounds>, groups: Option<seq<string>>)

  datatype Settings = Settings(
    nTrajectories: nat,
    optimalTrajectories: Option<nat>,
    nLevels: nat,
    gridJump: nat,
    problem: Problem)

  /** The arguments of the call into the library's Morris sampler. */
  datatype SampleRequest = SampleRequest(
    problem: Problem,
    n: nat,
    numLevels: nat,
    gridJump: nat,
    optimalTrajectories: Option<nat>,
    localOptimization: bool)

  /** What one data row of the bounds table contributes: its key, its bounds
      and its table index (`p_names`, `p_bounds`, `p_where`). */
  datatype ParamSpec = ParamSpec(key: string, bounds: Bounds, where: Option<int>)

  /** A template `parameter` element: its `id` attribute and either its text
      or the texts of its `<value>` children, in document order. */
  datatype Content = Text(text: string) | Values(values: seq<string>)
  datatype Element = Element(id: string, content: Content)

  /** An entry of `target_params`: the table index and the value to write. */
  datatype TargetValue = RunId(run: nat) | Sampled(x: real)
  datatype Target = Target(table: Option<int>, value: TargetValue)

  /** One `SArun` wrapper of the generated parameter file. */
  datatype RunBlock = SArun(params: seq<Element>)

  datatype Error =
    | MissingField(row: nat, column: nat)
    | NotANumber(row: nat, column: nat)
    | NoNameForValue(position: nat)
    | NotInTemplate(name: string)
    | NotTargeted(id: string)
    | NoSuchValue(id: string, table: int)

  // ---------------------------------------------------------------------
  // Parameter keys and the bounds table

  /** The key of a parameter: its name, followed by `_where_` and the table
      index when there is one. */
  function Key(name: string, index: Option<int>, py: Builtins): string {
    match index
    case None => name
    case Some(i) => name + WHERE + py.strInt(i)
  }

  /** The base name the sampler recovers from a key: `key.split("_where_")[0]`. */
  function BaseName(key: string): string {
    SplitHead(key, WHERE)
  }

  /** The bounds table without its header row (`next(reader, None)`). */
  function DataRows(rows: seq<seq<string>>): seq<seq<string>> {
    if rows == [] then [] else rows[1..]
  }

  /** Data row `n` of the bounds table, `[name, index, lower, upper, ...]`.
      An index field that is missing or that `int()` rejects makes the
      parameter scalar; a missing or malformed bound is an error. */
  function ParseRow(row: seq<string>, n: nat, py: Builtins): (r: Result<ParamSpec, Error>)
    ensures r.Ok? <==> |row| >= 4 && py.floatOf(row[2]).Some? && py.floatOf(row[3]).Some?
    ensures r.Ok? ==> r.value.where == py.intOf(row[1])
    ensures r.Ok? && r.value.where.None? ==> r.value.key == row[0]
    ensures r.Ok? && r.value.where.Some? ==>
              r.value.key == row[0] + WHERE + py.strInt(r.value.where.value)
    ensures r.Ok? ==> r.value.bounds == Bounds(py.floatOf(row[2]).value, py.floatOf(row[3]).value)
    ensures |row| == 0 ==> r == Err(MissingField(n, 0))
    ensures 0 < |row| < 3 ==> r == Err(MissingField(n, 2))
    ensures |row| >= 3 && py.floatOf(row[2]).None? ==> r == Err(NotANumber(n, 2))
    ensures |row| == 3 && py.floatOf(row[2]).Some? ==> r == Err(MissingField(n, 3))
    ensures |row| >= 4 && py.floatOf(row[2]).Some? && py.floatOf(row[3]).None? ==>
              r == Err(NotANumber(n, 3))
  {
    var index := if |row| > 1 then py.intOf(row[1]) else None;
    if |row| == 0 then Err(MissingField(n, 0))
    else if |row| < 3 then Err(MissingField(n, 2))
    else if py.floatOf(row[2]).None? then Err(NotANumber(n, 2))
    else if |row| < 4 then Err(MissingField(n, 3))
    else if py.floatOf(row[3]).None? then Err(NotANumber(n, 3))
    else Ok(ParamSpec(Key(row[0], index, py), Bounds(py.floatOf(row[2]).value, py.floatOf(row[3]).value), index))
  }

  /** In a tabulated key the first `_where_` is the one the sampler put there,
      provided the name holds no `_where_` and does not end in `_where`. */
  lemma FirstWhereOfKey(name: string, index: int, py: Builtins)
    requires !Contains(name, WHERE)
    requires !(|name| >= 6 && name[|name| - 6..] == WHERE[..6])
    ensures OccursAt(Key(name, Some(index), py), WHERE, |name|)
    ensures forall j: nat :: j < |name| ==> !OccursAt(Key(name, Some(index), py), WHERE, j)
  {
    var key := Key(name, Some(index), py);
    assert key[..|name|] == name;
    assert key[|name|..|name| + 7] == WHERE;
    forall j: nat | j < |name|
      ensures !OccursAt(key, WHERE, j)
    {
      if j + 7 <= |name| {
        assert name[j..j + 7] == key[j..j + 7];
        assert !OccursAt(name, WHERE, j);
      } else if |name| - j <= 5 {
        var d := |name| - j;
        assert key[j + d] == '_';
        assert WHERE[d] != '_';
      } else {
        assert key[j..j + 6] == name[|name| - 6..];
      }
    }
  }

  /** Splitting a key on `_where_` gives back the parameter's name, provided the
      name holds no `_where_` and, for a tabulated parameter, does not end in
      `_where` (the `_` that follows it would complete a `_where_`). */
  lemma BaseNameOfKey(name: string, index: Option<int>, py: Builtins)
    requires !Contains(name, WHERE)
    requires index.Some? ==> !(|name| >= 6 && name[|name| - 6..] == WHERE[..6])
    ensures BaseName(Key(name, index, py)) == name
  {
    var key := Key(name, index, py);
    SplitHeadSpec(key, WHERE);
    if index.Some? {
      FirstWhereOfKey(name, index.value, py);
      var r := BaseName(key);
      assert Contains(key, WHERE);
      assert |r| == |name|;
      assert key[..|name|] == name;
    }
  }

  /** A name ending in `_where` loses its tail: its tabulated key splits back
      to the part before that suffix. */
  lemma BaseNameOfSuffixedKey(index: int, py: Builtins)
    ensures !Contains("a_where", WHERE)
    ensures BaseName(Key("a_where", Some(index), py)) == "a"
  {
    var key := Key("a_where", Some(index), py);
    SplitHeadSpec(key, WHERE);
    assert key[1..8] == WHERE;
    assert OccursAt(key, WHERE, 1);
    assert key[0..7] != WHERE by { assert key[0] == 'a'; }
    assert !OccursAt(key, WHERE, 0);
    var r := BaseName(key);
    assert r == key[..1];
  }

  /** The base name recovered from the parameter's own table index instead
      of by splitting: the key with its `_where_<index>` suffix cut off. */
  function BaseNameOf(key: string, index: Option<int>, py: Builtins): string {
    match index
    case None => key
    case Some(i) =>
      var suffix := WHERE + py.strInt(i);
      if |suffix| <= |key| then key[..|key| - |suffix|] else key
  }

  /** Cutting the suffix gives back every parameter's name, `a_where` and
      names that hold `_where_` included. */
  lemma BaseNameOfEveryKey(name: string, index: Option<int>, py: Builtins)
    ensures BaseNameOf(Key(name, index, py), index, py) == name
  {
  }

  /** Unlike the split, cutting the suffix keeps `a_where` whole. */
  lemma SuffixedKeyKeepsName(index: int, py: Builtins)
    ensures BaseNameOf(Key("a_where", Some(index), py), Some(index), py) == "a_where"
    ensures BaseNameOf(Key("a_where", Some(index), py), Some(index), py) != BaseName(Key("a_where", Some(index), py))
  {
    BaseNameOfEveryKey("a_where", Some(index), py);
    BaseNameOfSuffixedKey(index, py);
  }

  // ---------------------------------------------------------------------
  // The run-details table

  /** The csv cells of one sampled run. */
  function CsvCells(vals: seq<real>, py: Builtins): seq<string> {
    seq(|vals|, j requires 0 <= j < |vals| => py.csvFloat(vals[j]))
  }

  /** `table` is the run-details table of `sample`: the header `run_ID` and the
      parameter keys, then one row per run, its number first. */
  predicate IsRunDetails(table: seq<seq<string>>, names: seq<string>, sample: seq<seq<real>>, py: Builtins) {
    && |table| == |sample| + 1
    && table[0] == [RUN_ID_HEADER] + names
    && forall i :: 0 <= i < |sample| ==> table[i + 1] == [py.strInt(i)] + CsvCells(sample[i], py)
  }

  /** The rows of the run-details csv file, header first. */
  method RunDetails(names: seq<string>, sample: seq<seq<real>>, py: Builtins) returns (table: seq<seq<string>>)
    ensures IsRunDetails(table, names, sample, py)
  {
    var header := [RUN_ID_HEADER] + names;
    table := [header];
    var i := 0;
    while i < |sample|
      invariant 0 <= i <= |sample|
      invariant |table| == i + 1 && table[0] == header
      invariant forall k :: 0 <= k < i ==> table[k + 1] == [py.strInt(k)] + CsvCells(sample[k], py)
    {
      var row := [py.strInt(i)] + CsvCells(sample[i], py);
      table := table + [row];
      i := i + 1;
    }
  }

  // ---------------------------------------------------------------------
  // Substituting one run's targets into the template (`custom_params`)

  /** The text `str()` gives a target's value. */
  function Str(v: TargetValue, py: Builtins): string {
    match v
    case RunId(n) => py.strInt(n)
    case Sampled(x) => py.strFloat(x)
  }

  /** One template element with its target applied: without a table index the
      element's whole text becomes the value; with one, only the `<value>`
      child at that (Python) index does, and an element without such a child
      is an error. */
  function Substitute(e: Element, t: Target, py: Builtins): (r: Result<Element, Error>)
    ensures r.Ok? ==> r.value.id == e.id
    ensures t.table.None? ==> r == Ok(Element(e.id, Text(Str(t.value, py))))
    ensures t.table.Some? ==>
              (r.Ok? <==> e.content.Values? && PyIndex(t.table.value, |e.content.values|).Some?)
    ensures t.table.Some? && r.Err? ==> r.error == NoSuchValue(e.id, t.table.value)
    ensures t.table.Some? && r.Ok? ==>
              var vs, j := e.content.values, PyIndex(t.table.value, |e.content.values|).value;
              && r.value.content.Values?
              && |r.value.content.values| == |vs|
              && r.value.content.values[j] == Str(t.value, py)
              && forall m :: 0 <= m < |vs| && m != j ==> r.value.content.values[m] == vs[m]
  {
    match t.table
    case None => Ok(Element(e.id, Text(Str(t.value, py))))
    case Some(k) =>
      if e.content.Text? then Err(NoSuchValue(e.id, k))
      else match PyIndex(k, |e.content.values|)
        case None => Err(NoSuchValue(e.id, k))
        case Some(j) => Ok(Element(e.id, Values(e.content.values[j := Str(t.value, py)])))
  }

  /** The element is targeted and its target can be applied to it. */
  predicate Applies(e: Element, targets: map<string, Target>, py: Builtins) {
    e.id in targets && Substitute(e, targets[e.id], py).Ok?
  }

  /** Why an element that does not apply aborts the run. */
  function FailureOf(e: Element, targets: map<string, Target>, py: Builtins): Error
    requires !Applies(e, targets, py)
  {
    if e.id !in targets then NotTargeted(e.id) else Substitute(e, targets[e.id], py).error
  }

  /** The elements from position `i` on, substituted in order after `done`. */
  function SubstituteFrom(template: seq<Element>, targets: map<string, Target>, py: Builtins,
                          i: nat, done: seq<Element>): Result<seq<Element>, Error>
    requires i <= |template|
    decreases |template| - i
  {
    if i == |template| then Ok(done)
    else if !Applies(template[i], targets, py) then Err(FailureOf(template[i], targets, py))
    else SubstituteFrom(template, targets, py, i + 1,
                        done + [Substitute(template[i], targets[template[i].id], py).value])
  }

  /** What `custom_params` returns for a template and a run's targets. */
  function Customized(template: seq<Element>, targets: map<string, Target>, py: Builtins): Result<seq<Element>, Error> {
    SubstituteFrom(template, targets, py, 0, [])
  }

  lemma {:induction false} SubstituteFromSpec(template: seq<Element>, targets: map<string, Target>, py: Builtins,
                                               i: nat, done: seq<Element>)
    requires i <= |template|
    ensures var r := SubstituteFrom(template, targets, py, i, done);
      && (r.Ok? <==> forall k :: i <= k < |template| ==> Applies(template[k], targets, py))
      && (r.Ok? ==> |r.value| == |done| + |template| - i && r.value[..|done|] == done)
      && (r.Ok? ==> forall k :: i <= k < |template| ==>
            r.value[|done| + k - i] == Substitute(template[k], targets[template[k].id], py).value)
      && (r.Err? ==> exists k :: (i <= k < |template| && !Applies(template[k], targets, py)
            && r.error == FailureOf(template[k], targets, py)))
    decreases |template| - i
  {
    if i < |template| && Applies(template[i], targets, py) {
      var e := Substitute(template[i], targets[template[i].id], py).value;
      SubstituteFromSpec(template, targets, py, i + 1, done + [e]);
      var r := SubstituteFrom(template, targets, py, i, done);
      if r.Ok? {
        assert r.value[..|done|] == (r.value[..|done| + 1])[..|done|];
      }
    }
  }

  /** `custom_params` works on a copy: it returns the template's elements with
      the same ids in the same order, each with its target applied, and it
      aborts when some template id is not targeted (or its target cannot be
      applied). */
  lemma CustomizedSpec(template: seq<Element>, targets: map<string, Target>, py: Builtins)
    ensures var r := Customized(template, targets, py);
      && (r.Ok? <==> forall k :: 0 <= k < |template| ==> Applies(template[k], targets, py))
      && (r.Ok? ==> |r.value| == |template|)
      && (r.Ok? ==> forall k :: 0 <= k < |template| ==>
            r.value[k].id == template[k].id
            && Substitute(template[k], targets[template[k].id], py) == Ok(r.value[k]))
      && ((exists k :: 0 <= k < |template| && template[k].id !in targets) ==> r.Err?)
  {
    SubstituteFromSpec(template, targets, py, 0, []);
    var r := Customized(template, targets, py);
    if r.Ok? {
      forall k | 0 <= k < |template|
        ensures r.value[k].id == template[k].id
        ensures Substitute(template[k], targets[template[k].id], py) == Ok(r.value[k])
      {
        assert r.value[0 + k - 0] == r.value[k];
      }
    }
  }

  /** `custom_params`: substitute a run's targets into a deep copy of the
      template, element by element, aborting on an element it cannot fill. */
  method CustomParams(template: seq<Element>, targets: map<string, Target>, py: Builtins)
    returns (r: Result<seq<Element>, Error>)
    ensures r == Customized(template, targets, py)
  {
    var newParams := template;
    var i := 0;
    while i < |newParams|
      invariant 0 <= i <= |template| && |newParams| == |template|
      invariant newParams[i..] == template[i..]
      invariant SubstituteFrom(template, targets, py, i, newParams[..i]) == Customized(template, targets, py)
    {
      var param := newParams[i];
      assert param == template[i] by { assert newParams[i..][0] == template[i..][0]; }
      var pName := param.id;
      if pName !in targets {
        return Err(NotTargeted(pName));
      }
      var pTarget := targets[pName];
      if pTarget.table.None? {
        param := Element(pName, Text(Str(pTarget.value, py)));
      } else {
        if param.content.Text? {
          return Err(NoSuchValue(pName, pTarget.table.value));
        }
        var tbVals := param.content.values;
        var j := PyIndex(pTarget.table.value, |tbVals|);
        if j.None? {
          return Err(NoSuchValue(pName, pTarget.table.value));
        }
        param := Element(pName, Values(tbVals[j.value := Str(pTarget.value, py)]));
      }
      assert newParams[i := param][..i + 1] == newParams[..i] + [param];
      assert newParams[i := param][i + 1..] == newParams[i + 1..];
      newParams := newParams[i := param];
      i := i + 1;
    }
    assert newParams[..i] == newParams;
    r := Ok(newParams);
  }

  // ---------------------------------------------------------------------
  // One run's targets (`target_params`)

  /** The template's ids, in order (`template_names`). */
  function Ids(template: seq<Element>): seq<string> {
    seq(|template|, k requires 0 <= k < |template| => template[k].id)
  }

  /** Among the first `n` keys, position `j` is the last with its base name. */
  predicate LastWrite(names: seq<string>, n: nat, j: nat)
    requires j < n <= |names|
  {
    forall k :: j < k < n ==> BaseName(names[k]) != BaseName(names[j])
  }

  /** The writes of sampled values `i..` into the target map `acc`. */
  function TargetsFrom(vals: seq<real>, names: seq<string>, wheres: seq<Option<int>>, ids: seq<string>,
                       i: nat, acc: map<string, Target>): Result<map<string, Target>, Error>
    requires |names| == |wheres|
    decreases |vals| - i
  {
    if i >= |vals| then Ok(acc)
    else if i >= |names| then Err(NoNameForValue(i))
    else if BaseName(names[i]) !in ids then Err(NotInTemplate(BaseName(names[i])))
    else TargetsFrom(vals, names, wheres, ids, i + 1, acc[BaseName(names[i]) := Target(wheres[i], Sampled(vals[i]))])
  }

  /** `target_params` of run `run`: the run number under `SArun`, then each
      sampled value under its key's base name. */
  function Targets(run: nat, vals: seq<real>, names: seq<string>, wheres: seq<Option<int>>, ids: seq<string>)
    : Result<map<string, Target>, Error>
    requires |names| == |wheres|
  {
    TargetsFrom(vals, names, wheres, ids, 0, map[RUN_PARAM := Target(None, RunId(run))])
  }

  lemma {:induction false} TargetsFromOk(vals: seq<real>, names: seq<string>, wheres: seq<Option<int>>,
                                          ids: seq<string>, i: nat, acc: map<string, Target>)
    requires |names| == |wheres| && i <= |vals|
    ensures TargetsFrom(vals, names, wheres, ids, i, acc).Ok?
        <==> (i == |vals| || |vals| <= |names|) && forall j :: i <= j < |vals| ==> BaseName(names[j]) in ids
    decreases |vals| - i
  {
    if i < |vals| && i < |names| && BaseName(names[i]) in ids {
      TargetsFromOk(vals, names, wheres, ids, i + 1, acc[BaseName(names[i]) := Target(wheres[i], Sampled(vals[i]))]);
    }
  }

  lemma {:induction false} TargetsFromKeys(vals: seq<real>, names: seq<string>, wheres: seq<Option<int>>,
                                            ids: seq<string>, i: nat, acc: map<string, Target>)
    requires |names| == |wheres| && i <= |vals| <= |names|
    requires TargetsFrom(vals, names, wheres, ids, i, acc).Ok?
    ensures TargetsFrom(vals, names, wheres, ids, i, acc).value.Keys
         == acc.Keys + (set j | i <= j < |vals| :: BaseName(names[j]))
    decreases |vals| - i
  {
    if i < |vals| {
      var b := BaseName(names[i]);
      TargetsFromKeys(vals, names, wheres, ids, i + 1, acc[b := Target(wheres[i], Sampled(vals[i]))]);
      assert (set j | i <= j < |vals| :: BaseName(names[j]))
          == {b} + (set j | i + 1 <= j < |vals| :: BaseName(names[j]));
    }
  }

  lemma {:induction false} TargetsFromValues(vals: seq<real>, names: seq<string>, wheres: seq<Option<int>>,
                                              ids: seq<string>, i: nat, acc: map<string, Target>)
    requires |names| == |wheres| && i <= |vals| <= |names|
    requires TargetsFrom(vals, names, wheres, ids, i, acc).Ok?
    ensures var m := TargetsFrom(vals, names, wheres, ids, i, acc).value;
      && (forall b :: b in acc && (forall j :: i <= j < |vals| ==> BaseName(names[j]) != b) ==>
            b in m && m[b] == acc[b])
      && (forall j :: i <= j < |vals| && LastWrite(names, |vals|, j) ==>
            BaseName(names[j]) in m && m[BaseName(names[j])] == Target(wheres[j], Sampled(vals[j])))
    decreases |vals| - i
  {
    if i < |vals| {
      var b := BaseName(names[i]);
      var acc' := acc[b := Target(wheres[i], Sampled(vals[i]))];
      TargetsFromValues(vals, names, wheres, ids, i + 1, acc');
    }
  }

  /** The target map of a run: it fails exactly when a sampled value has no
      key or its key's base name is not a template id; otherwise it maps
      `SArun` and every base name, each to its LAST write (a run number under
      `SArun` unless a key's base name is `SArun`). */
  lemma TargetsSpec(run: nat, vals: seq<real>, names: seq<string>, wheres: seq<Option<int>>, ids: seq<string>)
    requires |names| == |wheres|
    ensures var r := Targets(run, vals, names, wheres, ids);
      && (r.Ok? <==> |vals| <= |names| && forall j :: 0 <= j < |vals| ==> BaseName(names[j]) in ids)
      && (r.Ok? ==> r.value.Keys == {RUN_PARAM} + (set j | 0 <= j < |vals| :: BaseName(names[j])))
      && (r.Ok? ==> forall j :: 0 <= j < |vals| && LastWrite(names, |vals|, j) ==>
            r.value[BaseName(names[j])] == Target(wheres[j], Sampled(vals[j])))
      && (r.Ok? && (forall j :: 0 <= j < |vals| ==> BaseName(names[j]) != RUN_PARAM) ==>
            r.value[RUN_PARAM] == Target(None, RunId(run)))
  {
    var acc := map[RUN_PARAM := Target(None, RunId(run))];
    TargetsFromOk(vals, names, wheres, ids, 0, acc);
    if Targets(run, vals, names, wheres, ids).Ok? {
      TargetsFromKeys(vals, names, wheres, ids, 0, acc);
      TargetsFromValues(vals, names, wheres, ids, 0, acc);
    }
  }

  /** Two sampled keys with one base name write one entry: the later write
      wins and the earlier value is lost. */
  lemma SharedBaseLastWins(run: nat, vals: seq<real>, names: seq<string>, wheres: seq<Option<int>>, ids: seq<string>,
                           j: nat, k: nat)
    requires |names| == |wheres| && j < k < |vals| <= |names|
    requires BaseName(names[j]) == BaseName(names[k]) && LastWrite(names, |vals|, k)
    requires Targets(run, vals, names, wheres, ids).Ok?
    ensures var m := Targets(run, vals, names, wheres, ids).value;
      BaseName(names[j]) in m && m[BaseName(names[j])] == Target(wheres[k], Sampled(vals[k]))
  {
    TargetsSpec(run, vals, names, wheres, ids);
  }

  /** The target map the sampler fills field by field for one run. */
  method BuildTargets(run: nat, vals: seq<real>, names: seq<string>, wheres: seq<Option<int>>, templateNames: seq<string>)
    returns (r: Result<map<string, Target>, Error>)
    requires |names| == |wheres|
    ensures r == Targets(run, vals, names, wheres, templateNames)
  {
    var targetParams := map[RUN_PARAM := Target(None, RunId(run))];
    var idx := 0;
    while idx < |vals|
      invariant 0 <= idx <= |vals|
      invariant TargetsFrom(vals, names, wheres, templateNames, idx, targetParams)
             == Targets(run, vals, names, wheres, templateNames)
    {
      if idx >= |names| {
        return Err(NoNameForValue(idx));
      }
      var pName := SplitHead(names[idx], WHERE);
      if pName !in templateNames {
        return Err(NotInTemplate(pName));
      }
      targetParams := targetParams[pName := Target(wheres[idx], Sampled(vals[idx]))];
      idx := idx + 1;
    }
    r := Ok(targetParams);
  }

  // ---------------------------------------------------------------------
  // All runs: the `CropProperties` tree

  /** The template's elements as run `run` renders them. */
  function RenderRun(run: nat, vals: seq<real>, names: seq<string>, wheres: seq<Option<int>>,
                     template: seq<Element>, py: Builtins): Result<seq<Element>, Error>
    requires |names| == |wheres|
  {
    match Targets(run, vals, names, wheres, Ids(template))
    case Err(e) => Err(e)
    case Ok(t) => Customized(template, t, py)
  }

  /** Runs `k..` rendered in order after the wrappers `done`. */
  function RenderFrom(runs: seq<seq<real>>, names: seq<string>, wheres: seq<Option<int>>,
                      template: seq<Element>, py: Builtins, k: nat, done: seq<RunBlock>): Result<seq<RunBlock>, Error>
    requires |names| == |wheres| && k <= |runs|
    decreases |runs| - k
  {
    if k == |runs| then Ok(done)
    else match RenderRun(k, runs[k], names, wheres, template, py)
      case Err(e) => Err(e)
      case Ok(ps) => RenderFrom(runs, names, wheres, template, py, k + 1, done + [SArun(ps)])
  }

  /** The children of the generated `CropProperties` element. */
  function RenderAll(runs: seq<seq<real>>, names: seq<string>, wheres: seq<Option<int>>,
                     template: seq<Element>, py: Builtins): Result<seq<RunBlock>, Error>
    requires |names| == |wheres|
  {
    RenderFrom(runs, names, wheres, template, py, 0, [])
  }

  lemma {:induction false} RenderFromSpec(runs: seq<seq<real>>, names: seq<string>, wheres: seq<Option<int>>,
                                           template: seq<Element>, py: Builtins, k: nat, done: seq<RunBlock>)
    requires |names| == |wheres| && k <= |runs|
    ensures var r := RenderFrom(runs, names, wheres, template, py, k, done);
      && (r.Ok? <==> forall j :: k <= j < |runs| ==> RenderRun(j, runs[j], names, wheres, template, py).Ok?)
      && (r.Ok? ==> |r.value| == |done| + |runs| - k && r.value[..|done|] == done)
      && (r.Ok? ==> forall j :: k <= j < |runs| ==>
            r.value[|done| + j - k] == SArun(RenderRun(j, runs[j], names, wheres, template, py).value))
    decreases |runs| - k
  {
    if k < |runs| && RenderRun(k, runs[k], names, wheres, template, py).Ok? {
      var ps := RenderRun(k, runs[k], names, wheres, template, py).value;
      RenderFromSpec(runs, names, wheres, template, py, k + 1, done + [SArun(ps)]);
      var r := RenderFrom(runs, names, wheres, template, py, k, done);
      if r.Ok? {
        assert r.value[..|done|] == (r.value[..|done| + 1])[..|done|];
      }
    }
  }

  /** Rendering succeeds exactly when every run renders, and then holds one
      `SArun` wrapper per run, in run order. */
  lemma RenderAllSpec(runs: seq<seq<real>>, names: seq<string>, wheres: seq<Option<int>>,
                      template: seq<Element>, py: Builtins)
    requires |names| == |wheres|
    ensures var r := RenderAll(runs, names, wheres, template, py);
      && (r.Ok? <==> forall k :: 0 <= k < |runs| ==> RenderRun(k, runs[k], names, wheres, template, py).Ok?)
      && (r.Ok? ==> |r.value| == |runs|)
      && (r.Ok? ==> forall k :: 0 <= k < |runs| ==>
            r.value[k] == SArun(RenderRun(k, runs[k], names, wheres, template, py).value))
  {
    RenderFromSpec(runs, names, wheres, template, py, 0, []);
    var r := RenderAll(runs, names, wheres, template, py);
    if r.Ok? {
      forall k | 0 <= k < |runs|
        ensures r.value[k] == SArun(RenderRun(k, runs[k], names, wheres, template, py).value)
      {
        assert r.value[0 + k - 0] == r.value[k];
      }
    }
  }

  /** A sampled key whose base name is not a template id aborts rendering. */
  lemma UnknownNameAborts(runs: seq<seq<real>>, names: seq<string>, wheres: seq<Option<int>>,
                          template: seq<Element>, py: Builtins, k: nat, j: nat)
    requires |names| == |wheres| && k < |runs| && j < |runs[k]| && j < |names|
    requires BaseName(names[j]) !in Ids(template)
    ensures RenderAll(runs, names, wheres, template, py).Err?
  {
    TargetsSpec(k, runs[k], names, wheres, Ids(template));
    RenderAllSpec(runs, names, wheres, template, py);
  }

  /** A template element that no key of a run targets (other than the
      `SArun` element, which every run targets) aborts rendering. */
  lemma UntargetedIdAborts(runs: seq<seq<real>>, names: seq<string>, wheres: seq<Option<int>>,
                           template: seq<Element>, py: Builtins, k: nat, m: nat)
    requires |names| == |wheres| && k < |runs| && m < |template|
    requires template[m].id != RUN_PARAM
    requires forall j :: 0 <= j < |runs[k]| && j < |names| ==> BaseName(names[j]) != template[m].id
    ensures RenderAll(runs, names, wheres, template, py).Err?
  {
    var t := Targets(k, runs[k], names, wheres, Ids(template));
    TargetsSpec(k, runs[k], names, wheres, Ids(template));
    if t.Ok? {
      assert template[m].id !in t.value;
      CustomizedSpec(template, t.value, py);
    }
    RenderAllSpec(runs, names, wheres, template, py);
  }

  /** A rendered run keeps the template's ids in order; its `SArun` element
      holds the run number (unless a key's base name is `SArun`); and every
      element named by a key carries that name's last write, applied by
      `Substitute` (whole text, or the one indexed `<value>` child). */
  lemma RenderedRun(run: nat, vals: seq<real>, names: seq<string>, wheres: seq<Option<int>>,
                    template: seq<Element>, py: Builtins)
    requires |names| == |wheres| && |vals| <= |names|
    requires RenderRun(run, vals, names, wheres, template, py).Ok?
    ensures var es := RenderRun(run, vals, names, wheres, template, py).value;
      && |es| == |template|
      && (forall m :: 0 <= m < |template| ==> es[m].id == template[m].id)
      && ((forall j :: 0 <= j < |vals| ==> BaseName(names[j]) != RUN_PARAM) ==>
            forall m :: 0 <= m < |template| && template[m].id == RUN_PARAM ==>
              es[m].content == Text(py.strInt(run)))
      && (forall m, j ::
            (0 <= m < |template| && 0 <= j < |vals| && BaseName(names[j]) == template[m].id && LastWrite(names, |vals|, j))
            ==> Substitute(template[m], Target(wheres[j], Sampled(vals[j])), py) == Ok(es[m]))
  {
    var t := Targets(run, vals, names, wheres, Ids(template));
    TargetsSpec(run, vals, names, wheres, Ids(template));
    CustomizedSpec(template, t.value, py);
  }

  /** `sample`'s rendering loop: one wrapper per run, each filled with the
      elements `custom_params` returns. */
  method RenderRuns(runs: seq<seq<real>>, names: seq<string>, wheres: seq<Option<int>>,
                    template: seq<Element>, py: Builtins) returns (r: Result<seq<RunBlock>, Error>)
    requires |names| == |wheres|
    ensures r == RenderAll(runs, names, wheres, template, py)
  {
    var templateNames := Ids(template);
    var cpProps: seq<RunBlock> := [];
    var runId := 0;
    while runId < |runs|
      invariant 0 <= runId <= |runs|
      invariant RenderFrom(runs, names, wheres, template, py, runId, cpProps)
             == RenderAll(runs, names, wheres, template, py)
    {
      var targetParams := BuildTargets(runId, runs[runId], names, wheres, templateNames);
      if targetParams.Err? {
        return Err(targetParams.error);
      }
      var runPars := CustomParams(template, targetParams.value, py);
      if runPars.Err? {
        return Err(runPars.error);
      }
      var saTag: seq<Element> := [];
      for p := 0 to |runPars.value|
        invariant saTag == runPars.value[..p]
      {
        saTag := saTag + [runPars.value[p]];
      }
      assert saTag == runPars.value;
      cpProps := cpProps + [SArun(saTag)];
      runId := runId + 1;
    }
    r := Ok(cpProps);
  }

  // ---------------------------------------------------------------------
  // The script's state: the module-level parameter lists

  /** The module-level lists `p_names`, `p_bounds` and `p_where`, and the two
      functions of the script that use them. */
  class Session {
    var pNames: seq<string>
    var pBounds: seq<Bounds>
    var pWhere: seq<Option<int>>

    /** The three lists grow in lockstep: one entry per parameter. */
    ghost predicate Valid()
      reads this
    {
      |pNames| == |pBounds| == |pWhere|
    }

    constructor ()
      ensures Valid() && pNames == [] && pBounds == [] && pWhere == []
    {
      pNames, pBounds, pWhere := [], [], [];
    }

    /** `SA_settings`: append one key, bound pair and table index per data row
        of the bounds table, then build the problem and the fixed settings. */
    method SASettings(rows: seq<seq<string>>, py: Builtins) returns (r: Result<Settings, Error>)
      requires Valid()
      modifies this
      ensures Valid()
      ensures var data, base := DataRows(rows), |old(pNames)|;
        && base <= |pNames| <= base + |data|
        && pNames[..base] == old(pNames) && pBounds[..base] == old(pBounds) && pWhere[..base] == old(pWhere)
        && (forall i :: base <= i < |pNames| ==>
              ParseRow(data[i - base], i - base, py) == Ok(ParamSpec(pNames[i], pBounds[i], pWhere[i])))
        && (r.Ok? <==> |pNames| == base + |data|)
        && (r.Err? ==> ParseRow(data[|pNames| - base], |pNames| - base, py) == Err(r.error))
        && (r.Ok? ==> r.value == Settings(N_TRAJECTORIES, None, N_LEVELS, GRID_JUMP,
                                          Problem(|pNames|, pNames, pBounds, None)))
    {
      var data := DataRows(rows);
      ghost var base := |pNames|;
      var i := 0;
      while i < |data|
        invariant 0 <= i <= |data|
        invariant Valid() && |pNames| == base + i
        invariant pNames[..base] == old(pNames) && pBounds[..base] == old(pBounds) && pWhere[..base] == old(pWhere)
        invariant forall k :: base <= k < |pNames| ==>
                    ParseRow(data[k - base], k - base, py) == Ok(ParamSpec(pNames[k], pBounds[k], pWhere[k]))
      {
        var row := data[i];
        var pIndex := if |row| > 1 then py.intOf(row[1]) else None;
        if |row| == 0 {
          return Err(MissingField(i, 0));
        }
        var pName := if pIndex == None then row[0] else row[0] + WHERE + py.strInt(pIndex.value);
        if |row| < 3 {
          return Err(MissingField(i, 2));
        }
        var lo := py.floatOf(row[2]);
        if lo.None? {
          return Err(NotANumber(i, 2));
        }
        if |row| < 4 {
          return Err(MissingField(i, 3));
        }
        var hi := py.floatOf(row[3]);
        if hi.None? {
          return Err(NotANumber(i, 3));
        }
        pNames := pNames + [pName];
        pBounds := pBounds + [Bounds(lo.value, hi.value)];
        pWhere := pWhere + [pIndex];
        i := i + 1;
      }
      var problem := Problem(|pNames|, pNames, pBounds, None);
      r := Ok(Settings(N_TRAJECTORIES, None, N_LEVELS, GRID_JUMP, problem));
    }

    /** `sample`: draw the sample matrix, build the run-details table, and
        render one `SArun` block per run from the template's elements. */
    method Sample(settings: Settings, sampler: SampleRequest -> seq<seq<real>>, template: seq<Element>, py: Builtins)
      returns (sampleParams: seq<seq<real>>, details: seq<seq<string>>, rendered: Result<seq<RunBlock>, Error>)
      requires Valid()
      ensures sampleParams == sampler(SampleRequest(settings.problem, settings.nTrajectories, settings.nLevels,
                                                    settings.gridJump, settings.optimalTrajectories, false))
      ensures IsRunDetails(details, pNames, sampleParams, py)
      ensures rendered == RenderAll(sampleParams, pNames, pWhere, template, py)
    {
      sampleParams := sampler(SampleRequest(settings.problem, settings.nTrajectories, settings.nLevels,
                                            settings.gridJump, settings.optimalTrajectories, false));
      details := RunDetails(pNames, sampleParams, py);
      rendered := RenderRuns(sampleParams, pNames, pWhere, template, py);
    }
  }

  /** The script's top level: a fresh session, `SA_settings()`, then `sample()`. */
  method SamplerScript(rows: seq<seq<string>>, sampler: SampleRequest -> seq<seq<real>>,
                       template: seq<Element>, py: Builtins)
    returns (settings: Result<Settings, Error>, sampleParams: seq<seq<real>>,
             details: seq<seq<string>>, rendered: Result<seq<RunBlock>, Error>)
    ensures settings.Err? ==> sampleParams == [] && details == [] && rendered == Err(settings.error)
    ensures settings.Ok? ==>
      var p := settings.value.problem;
      && |p.names| == |p.bounds| == p.numVars == |DataRows(rows)|
      && sampleParams == sampler(SampleRequest(p, N_TRAJECTORIES, N_LEVELS, GRID_JUMP, None, false))
      && IsRunDetails(details, p.names, sampleParams, py)
      && exists wheres ::
           && |wheres| == |p.names|
           && (forall i :: 0 <= i < |p.names| ==>
                 ParseRow(DataRows(rows)[i], i, py) == Ok(ParamSpec(p.names[i], p.bounds[i], wheres[i])))
           && rendered == RenderAll(sampleParams, p.names, wheres, template, py)
  {
    var session := new Session();
    settings := session.SASettings(rows, py);
    if settings.Err? {
      return settings, [], [], Err(settings.error);
    }
    sampleParams, details, rendered := session.Sample(settings.value, sampler, template, py);
  }
}
