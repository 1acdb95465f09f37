/** The plant configuration of tea_main.py: the CSV of per-plant settings,
    grouped by plant name, the four settings every plant is built from, and
    the overrides applied to the built plants' variables. */
module Config {
  import opened Base
  import opened Dicts
  import opened Text
  import FlowSystem

  /** The settings of every plant: plant name to variable name to value. */
  type Config = Dict<string, Dict<string, Value>>

  /** One row of the configuration CSV, once typed. */
  datatype Entry = Entry(system: string, variable: string, value: Value)

  /** The settings under this name apply to every plant. */
  const AllSystems: string := "all"

  function UnknownType(typeName: string, filename: string): string {
    "ValueError: Unrecognised variable type " + typeName + " in config file " + filename + "."
  }

  /** The typing of a row's value by its (stripped, lower-cased) type name:
      a string is kept, a number is parsed by `float`, a boolean is true
      exactly when the text is "true" in any case; any other type raises. */
  function TypedValue(typeName: string, text: string, filename: string, parseFloat: string -> Result<real>): (r: Result<Value>)
    ensures typeName == "string" ==> r == Ok(StrV(text))
    ensures typeName == "number" ==> (r.Ok? <==> parseFloat(text).Ok?)
    ensures typeName == "number" && r.Ok? ==> r.value == NumV(parseFloat(text).value)
    ensures typeName == "number" && r.Err? ==> r.msg == parseFloat(text).msg
    ensures typeName == "boolean" ==> r.Ok? && r.value.BoolV? && (r.value.b <==> Lower(text) == "true")
    ensures r.Err? && typeName != "number" ==> r.msg == UnknownType(typeName, filename)
    ensures r.Err? ==> typeName != "string" && typeName != "boolean"
  {
    if typeName == "string" then Ok(StrV(text))
    else if typeName == "number" then
      var x :- parseFloat(text);
      Ok(NumV(x))
    else if typeName == "boolean" then Ok(BoolV(Lower(text) == "true"))
    else Err(UnknownType(typeName, filename))
  }

  /** A row of `load_config_from_csv`: plant name, variable name, value and
      type. Names are stripped and lower-cased, the value is stripped, and
      the type name is matched whatever its case. */
  function RowEntry(row: seq<string>, filename: string, parseFloat: string -> Result<real>): (r: Result<Entry>)
    ensures |row| < 4 ==> r == Err(IndexOutOfRange)
    ensures |row| >= 4 ==> (r.Ok? <==> TypedValue(Lower(Strip(row[3])), Strip(row[2]), filename, parseFloat).Ok?)
    ensures r.Ok? ==> r.value.system == Lower(Strip(row[0])) && r.value.variable == Lower(Strip(row[1]))
                      && r.value.value == TypedValue(Lower(Strip(row[3])), Strip(row[2]), filename, parseFloat).value
  {
    if |row| < 4 then Err(IndexOutOfRange)
    else
      var v :- TypedValue(Lower(Strip(row[3])), Strip(row[2]), filename, parseFloat);
      Ok(Entry(Lower(Strip(row[0])), Lower(Strip(row[1])), v))
  }

  /** The type name is matched case-insensitively and ignoring surrounding
      blanks. */
  lemma RowTypeCaseInsensitive(row: seq<string>, other: seq<string>, filename: string, parseFloat: string -> Result<real>)
    requires |row| >= 4 && |other| == |row|
    requires forall i :: 0 <= i < |row| && i != 3 ==> other[i] == row[i]
    requires Lower(Strip(other[3])) == Lower(Strip(row[3]))
    ensures RowEntry(other, filename, parseFloat) == RowEntry(row, filename, parseFloat)
  {
    assert other[0] == row[0] && other[1] == row[1] && other[2] == row[2];
  }

  /** Each row parsed, in order, or the exception of the first row that
      raises. */
  function ParseAll<R, T>(rows: seq<R>, parse: R -> Result<T>): (r: Result<seq<T>>)
    ensures r.Ok? <==> forall i :: 0 <= i < |rows| ==> parse(rows[i]).Ok?
    ensures r.Ok? ==> |r.value| == |rows| && forall i :: 0 <= i < |rows| ==> r.value[i] == parse(rows[i]).value
    ensures r.Err? ==> exists i :: 0 <= i < |rows| && parse(rows[i]).Err? && r.msg == parse(rows[i]).msg
                                   && forall j :: 0 <= j < i ==> parse(rows[j]).Ok?
  {
    if rows == [] then Ok([])
    else
      var prev := ParseAll(rows[..|rows| - 1], parse);
      if prev.Err? then Err(prev.msg)
      else
        var last := parse(rows[|rows| - 1]);
        if last.Err? then Err(last.msg)
        else Ok(prev.value + [last.value])
  }

  /** The first row that raises decides the exception, whatever follows. */
  lemma ParseAllFailureSticks<R, T>(rows: seq<R>, parse: R -> Result<T>, n: nat)
    requires 0 < n <= |rows| && parse(rows[n - 1]).Err? && ParseAll(rows[..n - 1], parse).Ok?
    ensures ParseAll(rows, parse) == Err(parse(rows[n - 1]).msg)
  {
    var r := ParseAll(rows, parse);
    assert forall j :: 0 <= j < n - 1 ==> rows[..n - 1][j] == rows[j];
    var i :| 0 <= i < |rows| && parse(rows[i]).Err? && r.msg == parse(rows[i]).msg
             && forall j :: 0 <= j < i ==> parse(rows[j]).Ok?;
  }

  /** `RowEntry` for one file. */
  function RowParser(filename: string, parseFloat: string -> Result<real>): seq<string> -> Result<Entry> {
    row => RowEntry(row, filename, parseFloat)
  }

  /** The configuration after storing one more row: a plant seen before has
      the variable set in its own table, a new plant gets a table of its own. */
  function Insert(config: Config, e: Entry): Config {
    if e.system in config.entries then Put(config, e.system, Put(config.entries[e.system], e.variable, e.value))
    else Put(config, e.system, Put(Empty(), e.variable, e.value))
  }

  /** The configuration the rows build, in order. */
  function Group(es: seq<Entry>): Config {
    if es == [] then Empty() else Insert(Group(es[..|es| - 1]), es[|es| - 1])
  }

  /** `load_config_from_csv` on the rows of a file, the title row first. */
  function ConfigFromRows(rows: seq<seq<string>>, filename: string, parseFloat: string -> Result<real>): (r: Result<Config>)
    ensures |rows| == 0 ==> r == Err(NoHeader)
    ensures |rows| > 0 ==> (r.Ok? <==> forall i :: 1 <= i < |rows| ==> RowEntry(rows[i], filename, parseFloat).Ok?)
    ensures |rows| > 0 && r.Err? ==>
              exists i :: 1 <= i < |rows| && RowEntry(rows[i], filename, parseFloat).Err?
                          && r.msg == RowEntry(rows[i], filename, parseFloat).msg
    ensures r.Ok? ==> r.value.Valid() && forall s :: s in r.value.entries ==> r.value.entries[s].Valid()
  {
    if |rows| == 0 then Err(NoHeader)
    else
      var parse := RowParser(filename, parseFloat);
      assert forall i :: 1 <= i < |rows| ==> parse(rows[i]) == parse(rows[1..][i - 1]);
      var es :- ParseAll(rows[1..], parse);
      GroupValid(es);
      Ok(Group(es))
  }

  /** `load_config_from_csv`: skip the title row, then store each row's
      value under its plant and variable. */
  method LoadConfigFromCsv(rows: seq<seq<string>>, filename: string, parseFloat: string -> Result<real>) returns (r: Result<Config>)
    ensures r == ConfigFromRows(rows, filename, parseFloat)
  {
    if |rows| == 0 {
      return Err(NoHeader);
    }
    r := GroupRows(rows[1..], RowParser(filename, parseFloat));
  }

  /** The loop of `load_config_from_csv` over the rows after the title. */
  method GroupRows(rows: seq<seq<string>>, parse: seq<string> -> Result<Entry>) returns (r: Result<Config>)
    ensures r.Err? <==> ParseAll(rows, parse).Err?
    ensures r.Err? ==> r.msg == ParseAll(rows, parse).msg
    ensures r.Ok? ==> r.value == Group(ParseAll(rows, parse).value)
  {
    var config: Config := Empty();
    var i := 0;
    while i < |rows|
      invariant 0 <= i <= |rows|
      invariant ParseAll(rows[..i], parse).Ok? && config == Group(ParseAll(rows[..i], parse).value)
    {
      assert rows[..i + 1][..i] == rows[..i];
      var e := parse(rows[i]);
      if e.Err? {
        ParseAllFailureSticks(rows, parse, i + 1);
        return Err(e.msg);
      }
      if e.value.system in config.entries {
        config := Put(config, e.value.system, Put(config.entries[e.value.system], e.value.variable, e.value.value));
      } else {
        config := Put(config, e.value.system, Put(Empty(), e.value.variable, e.value.value));
      }
      i := i + 1;
    }
    assert rows[..i] == rows;
    return Ok(config);
  }

  /** How one more row changes the lookups: its plant and variable now hold
      its value, and everything else is as before. */
  lemma InsertLookup(config: Config, e: Entry, s: string, v: string)
    ensures s in Insert(config, e).entries <==> s in config.entries || s == e.system
    ensures (s in Insert(config, e).entries && v in Insert(config, e).entries[s].entries)
            <==> (s in config.entries && v in config.entries[s].entries) || (s == e.system && v == e.variable)
    ensures s == e.system && v == e.variable ==> Insert(config, e).entries[s].entries[v] == e.value
    ensures (s != e.system || v != e.variable) && s in config.entries && v in config.entries[s].entries
            ==> Insert(config, e).entries[s].entries[v] == config.entries[s].entries[v]
  {
  }

  /** Some row sets this variable of this plant. */
  predicate SetBy(es: seq<Entry>, s: string, v: string) {
    exists i :: 0 <= i < |es| && es[i].system == s && es[i].variable == v
  }

  /** Row `i` is the last row to set its plant's variable. */
  predicate LastSetter(es: seq<Entry>, i: int) {
    0 <= i < |es| && forall j :: i < j < |es| ==> es[j].system != es[i].system || es[j].variable != es[i].variable
  }

  /** Some row names this plant. */
  predicate Names(es: seq<Entry>, s: string) {
    exists i :: 0 <= i < |es| && es[i].system == s
  }

  lemma NamesSnoc(es: seq<Entry>, s: string)
    requires es != []
    ensures Names(es, s) <==> Names(es[..|es| - 1], s) || es[|es| - 1].system == s
  {
    var prev := es[..|es| - 1];
    if Names(prev, s) {
      var i :| 0 <= i < |prev| && prev[i].system == s;
      assert es[i] == prev[i];
    }
    if Names(es, s) {
      var i :| 0 <= i < |es| && es[i].system == s;
      if i < |prev| {
        assert prev[i] == es[i];
      }
    }
  }

  /** A plant has a table exactly when some row names it. */
  lemma {:induction false} GroupSystems(es: seq<Entry>, s: string)
    ensures s in Group(es).entries <==> Names(es, s)
  {
    if es != [] {
      GroupSystems(es[..|es| - 1], s);
      InsertLookup(Group(es[..|es| - 1]), es[|es| - 1], s, "");
      NamesSnoc(es, s);
    }
  }

  lemma SetBySnoc(es: seq<Entry>, s: string, v: string)
    requires es != []
    ensures SetBy(es, s, v) <==> SetBy(es[..|es| - 1], s, v) || (es[|es| - 1].system == s && es[|es| - 1].variable == v)
  {
    var prev := es[..|es| - 1];
    if SetBy(prev, s, v) {
      var i :| 0 <= i < |prev| && prev[i].system == s && prev[i].variable == v;
      assert es[i] == prev[i];
    }
    if SetBy(es, s, v) {
      var i :| 0 <= i < |es| && es[i].system == s && es[i].variable == v;
      if i < |prev| {
        assert prev[i] == es[i];
      }
    }
  }

  /** A plant's table holds a variable exactly when some row sets it for
      that plant. */
  lemma {:induction false} GroupVariables(es: seq<Entry>, s: string, v: string)
    ensures (s in Group(es).entries && v in Group(es).entries[s].entries) <==> SetBy(es, s, v)
  {
    if es != [] {
      var prev := es[..|es| - 1];
      GroupVariables(prev, s, v);
      InsertLookup(Group(prev), es[|es| - 1], s, v);
      SetBySnoc(es, s, v);
    }
  }

  /** The value of a plant's variable is the one of the last row that sets
      it. */
  lemma {:induction false} GroupLastRowWins(es: seq<Entry>, i: int)
    requires LastSetter(es, i)
    ensures es[i].system in Group(es).entries && es[i].variable in Group(es).entries[es[i].system].entries
    ensures Group(es).entries[es[i].system].entries[es[i].variable] == es[i].value
  {
    var prev := es[..|es| - 1];
    var s, v := es[i].system, es[i].variable;
    InsertLookup(Group(prev), es[|es| - 1], s, v);
    if i < |prev| {
      assert prev[i] == es[i];
      assert LastSetter(prev, i) by {
        forall j | i < j < |prev| ensures prev[j].system != s || prev[j].variable != v {
          assert prev[j] == es[j];
        }
      }
      GroupLastRowWins(prev, i);
    }
  }

  /** Every table the rows build is a well-formed dict. */
  lemma {:induction false} GroupValid(es: seq<Entry>)
    ensures Group(es).Valid()
    ensures forall s :: s in Group(es).entries ==> Group(es).entries[s].Valid()
  {
    if es != [] {
      var prev := Group(es[..|es| - 1]);
      var e := es[|es| - 1];
      GroupValid(es[..|es| - 1]);
      if e.system in prev.entries {
        PutKeepsValid(prev.entries[e.system], e.variable, e.value);
        PutKeepsValid(prev, e.system, Put(prev.entries[e.system], e.variable, e.value));
      } else {
        PutKeepsValid(Empty<string, Value>(), e.variable, e.value);
        PutKeepsValid(prev, e.system, Put(Empty(), e.variable, e.value));
      }
    }
  }

  /** The rows build tables that list exactly the keys they hold. */
  lemma GroupWellFormed(es: seq<Entry>)
    ensures WellFormed(Group(es)) && AllCovered(Group(es))
  {
    GroupValid(es);
    forall s | s in Group(es).entries
      ensures Listed(Group(es).entries[s])
    {
      ValidListed(Group(es).entries[s]);
    }
  }

  // ---------------------------------------------------------------------
  // get_important_config_entries

  const OnPremisesH2Key: string := "on premises h2 production"
  const H2StorageTypeKey: string := "h2 storage type"
  const AnnualSteelKey: string := "annual steel production tonnes"
  const LifetimeKey: string := "plant lifetime years"

  /** The table of a plant, or an empty one: `config.get(name, {})`. */
  function TableOf(config: Config, name: string): (r: Dict<string, Value>)
    ensures name in config.entries ==> r == config.entries[name]
    ensures name !in config.entries ==> r == Empty()
  {
    GetOr(config, name, Empty())
  }

  /** One setting of a plant: its own value, else the value for all plants,
      else the default. */
  function Setting(config: Config, name: string, key: string, default: Value): (r: Value)
    ensures key in TableOf(config, name).entries ==> r == TableOf(config, name).entries[key]
    ensures key !in TableOf(config, name).entries && key in TableOf(config, AllSystems).entries
            ==> r == TableOf(config, AllSystems).entries[key]
    ensures key !in TableOf(config, name).entries && key !in TableOf(config, AllSystems).entries ==> r == default
  {
    var specific := TableOf(config, name);
    if key in specific.entries then specific.entries[key] else GetOr(TableOf(config, AllSystems), key, default)
  }

  /** The settings every plant is built from. */
  datatype ImportantEntries = ImportantEntries(onPremisesH2: Value, h2StorageType: Value, annualSteelTonnes: Value, lifetimeYears: Value)

  /** `get_important_config_entries`: the plant is looked up by its
      lower-cased name. */
  function ImportantConfigEntries(systemName: string, config: Config): (r: ImportantEntries)
    ensures r.onPremisesH2 == Setting(config, Lower(systemName), OnPremisesH2Key, BoolV(false))
    ensures r.h2StorageType == Setting(config, Lower(systemName), H2StorageTypeKey, StrV("salt caverns"))
    ensures r.annualSteelTonnes == Setting(config, Lower(systemName), AnnualSteelKey, NumV(1.5e6))
    ensures r.lifetimeYears == Setting(config, Lower(systemName), LifetimeKey, NumV(20.0))
  {
    var name := Lower(systemName);
    ImportantEntries(Setting(config, name, OnPremisesH2Key, BoolV(false)),
                     Setting(config, name, H2StorageTypeKey, StrV("salt caverns")),
                     Setting(config, name, AnnualSteelKey, NumV(1.5e6)),
                     Setting(config, name, LifetimeKey, NumV(20.0)))
  }

  /** A plant named in neither its own nor the shared settings gets the
      defaults: no on-site hydrogen, salt caverns, 1.5 million tonnes a
      year and 20 years. */
  lemma ImportantDefaults(systemName: string, config: Config)
    requires Lower(systemName) !in config.entries && AllSystems !in config.entries
    ensures ImportantConfigEntries(systemName, config)
            == ImportantEntries(BoolV(false), StrV("salt caverns"), NumV(1.5e6), NumV(20.0))
  {
  }

  /** Plant names that differ only in case get the same settings. */
  lemma ImportantCaseInsensitive(a: string, b: string, config: Config)
    requires Lower(a) == Lower(b)
    ensures ImportantConfigEntries(a, config) == ImportantConfigEntries(b, config)
  {
  }

  // ---------------------------------------------------------------------
  // The overrides of create_systems

  /** Every key the table lists has a value. */
  ghost predicate Covered(t: Dict<string, Value>) {
    forall i :: 0 <= i < |t.order| ==> t.order[i] in t.entries
  }

  /** The table lists exactly the keys it has values for. */
  ghost predicate Listed(t: Dict<string, Value>) {
    Covered(t) && forall k :: k in t.entries ==> k in t.order
  }

  /** Every plant's table lists only keys it has. */
  ghost predicate WellFormed(config: Config) {
    forall s :: s in config.entries ==> Listed(config.entries[s])
  }

  /** Every plant's table has a value for each key it lists. */
  ghost predicate AllCovered(config: Config) {
    forall s :: s in config.entries ==> Covered(config.entries[s])
  }

  lemma ValidListed(t: Dict<string, Value>)
    requires t.Valid()
    ensures Listed(t)
  {
  }

  lemma TableCovered(config: Config, name: string)
    requires AllCovered(config)
    ensures Covered(TableOf(config, name))
  {
  }

  lemma TableListed(config: Config, name: string)
    requires WellFormed(config)
    ensures Listed(TableOf(config, name))
  {
  }

  /** Assign every entry of a table, in its order. */
  function PutAll(d: Dict<string, Value>, t: Dict<string, Value>, n: nat): (r: Dict<string, Value>)
    requires n <= |t.order| && Covered(t)
  {
    if n == 0 then d else Put(PutAll(d, t, n - 1), t.order[n - 1], t.entries[t.order[n - 1]])
  }

  /** After the assignments a key has the table's value when the table has
      it, and keeps its old value otherwise. */
  lemma {:induction false} PutAllLookup(d: Dict<string, Value>, t: Dict<string, Value>, n: nat, k: string)
    requires n <= |t.order| && Covered(t)
    ensures k in PutAll(d, t, n).entries <==> k in d.entries || k in t.order[..n]
    ensures k in t.order[..n] ==> PutAll(d, t, n).entries[k] == t.entries[k]
    ensures k !in t.order[..n] && k in d.entries ==> PutAll(d, t, n).entries[k] == d.entries[k]
  {
    if n > 0 {
      var last := t.order[n - 1];
      PutAllLookup(d, t, n - 1, k);
      assert t.order[..n] == t.order[..n - 1] + [last];
      assert k in t.order[..n] <==> k in t.order[..n - 1] || k == last;
      assert PutAll(d, t, n).entries == PutAll(d, t, n - 1).entries[last := t.entries[last]];
    }
  }

  /** The variables of a plant once the shared settings are assigned. */
  function SharedApplied(vars: Dict<string, Value>, config: Config): Dict<string, Value>
    requires AllCovered(config)
  {
    TableCovered(config, AllSystems);
    PutAll(vars, TableOf(config, AllSystems), |TableOf(config, AllSystems).order|)
  }

  /** The variables of a plant once its own settings are assigned. */
  function OwnApplied(vars: Dict<string, Value>, name: string, config: Config): Dict<string, Value>
    requires AllCovered(config)
  {
    TableCovered(config, Lower(name));
    PutAll(vars, TableOf(config, Lower(name)), |TableOf(config, Lower(name)).order|)
  }

  /** The variables of a plant once the shared settings and then its own
      are assigned. */
  function Overridden(vars: Dict<string, Value>, name: string, config: Config): Dict<string, Value>
    requires AllCovered(config)
  {
    OwnApplied(SharedApplied(vars, config), name, config)
  }

  /** A plant's own setting wins over the shared one, which wins over the
      value the plant was built with. */
  lemma OverriddenPrecedence(vars: Dict<string, Value>, name: string, config: Config, k: string)
    requires WellFormed(config)
    ensures k in Overridden(vars, name, config).entries
            <==> k in vars.entries || k in TableOf(config, AllSystems).entries || k in TableOf(config, Lower(name)).entries
    ensures k in Overridden(vars, name, config).entries
            ==> Overridden(vars, name, config).entries[k] == Setting(config, Lower(name), k, GetOr(vars, k, NoneV))
  {
    var shared := TableOf(config, AllSystems);
    var own := TableOf(config, Lower(name));
    TableListed(config, AllSystems);
    TableListed(config, Lower(name));
    assert shared.order[..|shared.order|] == shared.order;
    assert own.order[..|own.order|] == own.order;
    PutAllLookup(vars, shared, |shared.order|, k);
    PutAllLookup(PutAll(vars, shared, |shared.order|), own, |own.order|, k);
  }

  /** The four settings a plant is built from are the ones the overrides
      leave in its variables, whenever the configuration sets them. */
  lemma ImportantAgreesWithOverrides(vars: Dict<string, Value>, name: string, config: Config)
    requires WellFormed(config)
    ensures var o := Overridden(vars, name, config).entries;
            var e := ImportantConfigEntries(name, config);
            (OnPremisesH2Key in o && OnPremisesH2Key !in vars.entries ==> o[OnPremisesH2Key] == e.onPremisesH2)
            && (H2StorageTypeKey in o && H2StorageTypeKey !in vars.entries ==> o[H2StorageTypeKey] == e.h2StorageType)
            && (AnnualSteelKey in o && AnnualSteelKey !in vars.entries ==> o[AnnualSteelKey] == e.annualSteelTonnes)
            && (LifetimeKey in o && LifetimeKey !in vars.entries ==> o[LifetimeKey] == e.lifetimeYears)
  {
    OverriddenPrecedence(vars, name, config, OnPremisesH2Key);
    OverriddenPrecedence(vars, name, config, H2StorageTypeKey);
    OverriddenPrecedence(vars, name, config, AnnualSteelKey);
    OverriddenPrecedence(vars, name, config, LifetimeKey);
  }

  /** What the overrides leave alone: the plant's name, devices and flows. */
  predicate Same(system: FlowSystem.System, name: string, devices: Dict<string, FlowSystem.Device>,
                 flows: Dict<FlowSystem.FlowKey, FlowSystem.Flow>)
    reads system
  {
    system.name == name && system.devices == devices && system.flows == flows
  }

  /** `system.system_vars[entry] = value` for every plant. */
  method AssignToEach(systems: seq<FlowSystem.System>, entry: string, value: Value)
    requires forall i, j :: 0 <= i < j < |systems| ==> systems[i] != systems[j]
    modifies set i | 0 <= i < |systems| :: systems[i]
    ensures forall i :: 0 <= i < |systems| ==>
              systems[i].systemVars == Put(old(systems[i].systemVars), entry, value)
              && Same(systems[i], old(systems[i].name), old(systems[i].devices), old(systems[i].flows))
  {
    var k := 0;
    while k < |systems|
      invariant 0 <= k <= |systems|
      invariant forall i :: 0 <= i < |systems| ==>
                  systems[i].systemVars == (if i < k then Put(old(systems[i].systemVars), entry, value) else old(systems[i].systemVars))
                  && Same(systems[i], old(systems[i].name), old(systems[i].devices), old(systems[i].flows))
    {
      systems[k].systemVars := Put(systems[k].systemVars, entry, value);
      k := k + 1;
    }
  }

  /** Every entry of a table, in its order, assigned to one plant. */
  method AssignAll(system: FlowSystem.System, t: Dict<string, Value>)
    requires Covered(t)
    modifies system
    ensures system.systemVars == PutAll(old(system.systemVars), t, |t.order|)
    ensures Same(system, old(system.name), old(system.devices), old(system.flows))
  {
    var vars := system.systemVars;
    var n := 0;
    while n < |t.order|
      invariant 0 <= n <= |t.order|
      invariant vars == PutAll(old(system.systemVars), t, n)
    {
      var entry := t.order[n];
      vars := Put(vars, entry, t.entries[entry]);
      n := n + 1;
    }
    system.systemVars := vars;
  }

  /** The override loops of `create_systems`: every shared setting, in
      order, is assigned to every plant; then each plant's own settings,
      found by its lower-cased name, are assigned to it. */
  method ApplyOverrides(systems: seq<FlowSystem.System>, config: Config)
    requires forall i, j :: 0 <= i < j < |systems| ==> systems[i] != systems[j]
    requires AllCovered(config)
    modifies set i | 0 <= i < |systems| :: systems[i]
    ensures forall i :: 0 <= i < |systems| ==>
              systems[i].systemVars == Overridden(old(systems[i].systemVars), systems[i].name, config)
              && Same(systems[i], old(systems[i].name), old(systems[i].devices), old(systems[i].flows))
  {
    ApplyShared(systems, config);
    var k := 0;
    while k < |systems|
      invariant 0 <= k <= |systems|
      invariant forall i :: 0 <= i < k ==>
                  systems[i].systemVars == Overridden(old(systems[i].systemVars), systems[i].name, config)
      invariant forall i :: k <= i < |systems| ==>
                  systems[i].systemVars == SharedApplied(old(systems[i].systemVars), config)
      invariant forall i :: 0 <= i < |systems| ==>
                  systems[i].name == old(systems[i].name) && systems[i].devices == old(systems[i].devices)
                  && systems[i].flows == old(systems[i].flows)
    {
      ghost var name := systems[k].name;
      assert systems[k].systemVars == SharedApplied(old(systems[k].systemVars), config);
      ApplyOwn(systems[k], config);
      assert systems[k].name == name;
      assert systems[k].systemVars == Overridden(old(systems[k].systemVars), name, config);
      k := k + 1;
    }
  }

  /** The loop of `create_systems` over one plant's own settings. */
  method ApplyOwn(system: FlowSystem.System, config: Config)
    requires AllCovered(config)
    modifies system
    ensures system.systemVars == OwnApplied(old(system.systemVars), system.name, config)
    ensures Same(system, old(system.name), old(system.devices), old(system.flows))
  {
    TableCovered(config, Lower(system.name));
    AssignAll(system, TableOf(config, Lower(system.name)));
  }

  /** The loops of `create_systems` over the shared settings: each entry,
      in order, is assigned to every plant. */
  method ApplyShared(systems: seq<FlowSystem.System>, config: Config)
    requires forall i, j :: 0 <= i < j < |systems| ==> systems[i] != systems[j]
    requires AllCovered(config)
    modifies set i | 0 <= i < |systems| :: systems[i]
    ensures forall i :: 0 <= i < |systems| ==>
              systems[i].systemVars == SharedApplied(old(systems[i].systemVars), config)
              && Same(systems[i], old(systems[i].name), old(systems[i].devices), old(systems[i].flows))
  {
    var shared := TableOf(config, AllSystems);
    TableCovered(config, AllSystems);
    var e := 0;
    while e < |shared.order|
      invariant 0 <= e <= |shared.order|
      invariant forall i :: 0 <= i < |systems| ==>
                  systems[i].systemVars == PutAll(old(systems[i].systemVars), shared, e)
                  && Same(systems[i], old(systems[i].name), old(systems[i].devices), old(systems[i].flows))
    {
      var entry := shared.order[e];
      AssignToEach(systems, entry, shared.entries[entry]);
      e := e + 1;
    }
  }
}
