/** The ore tables and `add_ore_composition` of
    examples/low_emission_steel/mass_energy_flow.py and
    examples/steel_mass_energy.py: a dry ore table gains its gangue and
    hematite percentages, its iron is put in hematite, and a simple
    composition keeps only SiO2, Al2O3, CaO and MgO as impurities. */
module OreTables {
  import opened Base
  import opened Dicts
  import opened Ore
  import Text

  // ---------------------------------------------------------------------
  // The tables, in weight percent of dry ore

  function IOA(): Composition {
    Dict(["Fe", "TiO2", "Al2O3", "SiO2", "CaO", "MgO", "S", "P2O5"],
         map["Fe" := 66.31, "TiO2" := 0.15, "Al2O3" := 2.5, "SiO2" := 2.5, "CaO" := 0.0,
             "MgO" := 0.0, "S" := 0.01, "P2O5" := 0.03])
  }

  function IOB(): Composition {
    Dict(["Fe", "NiO", "TiO2", "V2O5", "Al2O3", "SiO2", "MgO", "CaO", "S", "P2O5"],
         map["Fe" := 65.47, "NiO" := 0.04, "TiO2" := 1.07, "V2O5" := 0.68, "Al2O3" := 0.3,
             "SiO2" := 1.94, "MgO" := 2.17, "CaO" := 0.12, "S" := 0.06, "P2O5" := 0.02])
  }

  function IOC(): Composition {
    Dict(["Fe", "Al2O3", "SiO2", "MgO", "CaO", "S", "P2O5", "Mn", "LOI"],
         map["Fe" := 58.42, "Al2O3" := 2.57, "SiO2" := 5.97, "MgO" := 0.0, "CaO" := 0.0,
             "S" := 0.03, "P2O5" := 0.19, "Mn" := 0.51, "LOI" := 7.2])
  }

  function IOD(): Composition {
    Dict(["Fe", "Al2O3", "SiO2", "MgO", "CaO", "S", "P2O5", "Mn", "LOI"],
         map["Fe" := 56.71, "Al2O3" := 3.28, "SiO2" := 6.56, "MgO" := 0.0, "CaO" := 0.0,
             "S" := 0.03, "P2O5" := 0.14, "Mn" := 0.72, "LOI" := 8.2])
  }

  function IOE(): Composition {
    Dict(["Fe", "Al2O3", "SiO2", "MgO", "CaO", "S", "P2O5", "Mn", "LOI"],
         map["Fe" := 56.41, "Al2O3" := 3.01, "SiO2" := 6.71, "MgO" := 0.0, "CaO" := 0.04,
             "S" := 0.04, "P2O5" := 0.06, "Mn" := 0.40, "LOI" := 8.8])
  }

  /** The default ore, used for every name not in the list. */
  function DefaultOre(): Composition {
    Dict(["Fe", "SiO2", "Al2O3", "TiO2", "Mn", "CaO", "MgO", "Na2O", "K2O", "P", "S"],
         map["Fe" := 65.263, "SiO2" := 3.814, "Al2O3" := 2.437, "TiO2" := 0.095, "Mn" := 0.148,
             "CaO" := 0.032, "MgO" := 0.085, "Na2O" := 0.012, "K2O" := 0.011, "P" := 0.109,
             "S" := 0.024])
  }

  /** The simple composition examples/steel_mass_energy.py writes out for
      the default ore. */
  function DefaultSimpleOre(): Composition {
    Dict(["Fe", "SiO2", "Al2O3", "CaO", "MgO"],
         map["Fe" := 65.263, "SiO2" := 3.91375, "Al2O3" := 2.53675, "CaO" := 0.13175, "MgO" := 0.18475])
  }

  /** The table for an ore name, matched in upper case; an unknown name
      falls back to the default ore. */
  function OreTable(name: string): (r: Composition)
    ensures Text.Upper(name) !in {"IOA", "IOB", "IOC", "IOD", "IOE"} ==> r == DefaultOre()
  {
    var n := Text.Upper(name);
    if n == "IOA" then IOA()
    else if n == "IOB" then IOB()
    else if n == "IOC" then IOC()
    else if n == "IOD" then IOD()
    else if n == "IOE" then IOE()
    else DefaultOre()
  }

  /** The keys the composition code reads from a table. */
  predicate HasOxides(c: Composition) {
    "Fe" in c.entries && "SiO2" in c.entries && "Al2O3" in c.entries
    && "CaO" in c.entries && "MgO" in c.entries
  }

  /** A dry table: a dict with iron and the four oxides, and no gangue or
      hematite entry yet. */
  ghost predicate DryTable(c: Composition) {
    c.Valid() && HasOxides(c) && "gangue" !in c.entries && "hematite" !in c.entries
  }

  /** Each table is a well-formed dict holding iron and the four oxides, and
      its total is the one its entries add up to. */
  lemma IOAIsValid() ensures IOA().Valid() { }
  lemma IOAKeys() ensures HasOxides(IOA()) && "gangue" !in IOA().entries && "hematite" !in IOA().entries { }
  lemma IOATotal() ensures SumValues(IOA()) == 71.5 { }
  lemma IOAIronAndLoi() ensures IOA().entries["Fe"] == 66.31 && Loi(IOA()) == 0.0 { }
  lemma IOAIsDry() ensures DryTable(IOA()) { IOAIsValid(); IOAKeys(); }

  lemma IOBIsValid() ensures IOB().Valid() { }
  lemma IOBKeys() ensures HasOxides(IOB()) && "gangue" !in IOB().entries && "hematite" !in IOB().entries { }
  lemma IOBTotal() ensures SumValues(IOB()) == 71.87 { }
  lemma IOBIronAndLoi() ensures IOB().entries["Fe"] == 65.47 && Loi(IOB()) == 0.0 { }
  lemma IOBIsDry() ensures DryTable(IOB()) { IOBIsValid(); IOBKeys(); }

  lemma IOCIsValid() ensures IOC().Valid() { }
  lemma IOCKeys() ensures HasOxides(IOC()) && "gangue" !in IOC().entries && "hematite" !in IOC().entries { }
  lemma IOCTotal() ensures SumValues(IOC()) == 74.89 { }
  lemma IOCIronAndLoi() ensures IOC().entries["Fe"] == 58.42 && Loi(IOC()) == 7.2 { }
  lemma IOCIsDry() ensures DryTable(IOC()) { IOCIsValid(); IOCKeys(); }

  lemma IODIsValid() ensures IOD().Valid() { }
  lemma IODKeys() ensures HasOxides(IOD()) && "gangue" !in IOD().entries && "hematite" !in IOD().entries { }
  lemma IODTotal() ensures SumValues(IOD()) == 75.64 { }
  lemma IODIronAndLoi() ensures IOD().entries["Fe"] == 56.71 && Loi(IOD()) == 8.2 { }
  lemma IODIsDry() ensures DryTable(IOD()) { IODIsValid(); IODKeys(); }

  lemma IOEIsValid() ensures IOE().Valid() { }
  lemma IOEKeys() ensures HasOxides(IOE()) && "gangue" !in IOE().entries && "hematite" !in IOE().entries { }
  lemma IOETotal() ensures SumValues(IOE()) == 75.47 { }
  lemma IOEIronAndLoi() ensures IOE().entries["Fe"] == 56.41 && Loi(IOE()) == 8.8 { }
  lemma IOEIsDry() ensures DryTable(IOE()) { IOEIsValid(); IOEKeys(); }

  lemma DefaultIsValid() ensures DefaultOre().Valid() { }
  lemma DefaultKeys() ensures HasOxides(DefaultOre()) && "gangue" !in DefaultOre().entries && "hematite" !in DefaultOre().entries { }
  lemma DefaultTotal() ensures SumValues(DefaultOre()) == 72.03 { }
  lemma DefaultIronAndLoi() ensures DefaultOre().entries["Fe"] == 65.263 && Loi(DefaultOre()) == 0.0 { }
  lemma DefaultIsDry() ensures DryTable(DefaultOre()) { DefaultIsValid(); DefaultKeys(); }

  lemma DefaultSimpleIsValid() ensures DefaultSimpleOre().Valid() { }
  lemma DefaultSimpleKeys() ensures HasOxides(DefaultSimpleOre()) && "gangue" !in DefaultSimpleOre().entries && "hematite" !in DefaultSimpleOre().entries { }
  lemma DefaultSimpleIron() ensures "Fe" in DefaultSimpleOre().entries && DefaultSimpleOre().entries["Fe"] == 65.263 { }
  lemma DefaultSimpleTotal() ensures SumValues(DefaultSimpleOre()) == 72.03 { }
  lemma DefaultSimpleIsDry() ensures DryTable(DefaultSimpleOre()) { DefaultSimpleIsValid(); DefaultSimpleKeys(); }

  lemma OreTablesAreDry(name: string)
    ensures DryTable(OreTable(name))
  {
    var n := Text.Upper(name);
    if n == "IOA" { IOAIsDry(); }
    else if n == "IOB" { IOBIsDry(); }
    else if n == "IOC" { IOCIsDry(); }
    else if n == "IOD" { IODIsDry(); }
    else if n == "IOE" { IOEIsDry(); }
    else { DefaultIsDry(); }
  }

  // ---------------------------------------------------------------------
  // Gangue and hematite

  function Loi(c: Composition): real {
    GetOr(c, "LOI", 0.0)
  }

  /** Gangue: the table's total less its iron and its LOI. */
  function Gangue(c: Composition): real
    requires "Fe" in c.entries
  {
    SumValues(c) - c.entries["Fe"] - Loi(c)
  }

  /** The table with its gangue and the given hematite percentage added. */
  function WithGangueAnd(c: Composition, hematite: real): (r: Composition)
    requires "Fe" in c.entries
    ensures r.entries == c.entries["gangue" := Gangue(c)]["hematite" := hematite]
  {
    Put(Put(c, "gangue", Gangue(c)), "hematite", hematite)
  }

  /** The hematite line of the low-emission `add_ore_composition` as written:
      `100 - gangue - - LOI`, so the LOI is added instead of taken away. */
  function HematiteAsWritten(c: Composition): real
    requires "Fe" in c.entries
  {
    100.0 - Gangue(c) - -Loi(c)
  }

  /** What gangue and LOI leave of the ore, as the root copy of the code and
      `hematite_normalise` compute it. */
  function Hematite(c: Composition): real
    requires "Fe" in c.entries
  {
    100.0 - Gangue(c) - Loi(c)
  }

  /** The complex composition of the low-emission `add_ore_composition` as
      written, before its simple composition is derived. */
  function ComplexAsWritten(table: Composition): Result<Composition>
    requires "Fe" in table.entries
  {
    Normalised(WithGangueAnd(table, HematiteAsWritten(table)), FromMolarMasses)
  }

  /** The complex composition with the hematite line corrected. */
  function Complex(table: Composition): Result<Composition>
    requires "Fe" in table.entries
  {
    Normalised(WithGangueAnd(table, Hematite(table)), FromMolarMasses)
  }

  /** Adding the gangue entry, then the hematite entry, raises the total by
      both. */
  lemma SumWithGangueAnd(c: Composition, hematite: real)
    requires DryTable(c)
    ensures WithGangueAnd(c, hematite).Valid()
    ensures SumValues(WithGangueAnd(c, hematite)) == SumValues(c) + Gangue(c) + hematite
  {
    var g := Put(c, "gangue", Gangue(c));
    PutKeepsValid(c, "gangue", Gangue(c));
    SumAfterPut(c, "gangue", Gangue(c));
    PutKeepsValid(g, "hematite", hematite);
    SumAfterPut(g, "hematite", hematite);
  }

  /** The corrected complex composition is accepted exactly when the table's
      iron is within a point of the hematite's iron; it then balances:
      hematite, gangue and LOI make 100 percent, the gangue is the table's
      total less iron and LOI, and all the iron is in the hematite. */
  lemma ComplexBalances(table: Composition)
    requires DryTable(table)
    ensures Complex(table).Ok? <==> Abs(table.entries["Fe"] - IronIn(Hematite(table), FromMolarMasses)) <= 1.0
    ensures Complex(table).Ok? ==>
              var c := Complex(table).value;
              c.entries["hematite"] + c.entries["gangue"] + Loi(c) == 100.0
              && c.entries["gangue"] + table.entries["Fe"] + Loi(table) == SumValues(table)
              && c.entries["Fe"] == IronIn(c.entries["hematite"], FromMolarMasses)
  {
    NormalisedWith(table, Hematite(table));
    if Complex(table).Ok? {
      var c := Complex(table).value;
      assert c.entries == table.entries["gangue" := Gangue(table)]["hematite" := Hematite(table)]
                                       ["Fe" := IronIn(Hematite(table), FromMolarMasses)];
      assert c.entries["hematite"] == Hematite(table) && c.entries["gangue"] == Gangue(table);
      assert Loi(c) == Loi(table);
    }
  }

  /** As written, the hematite, gangue and LOI of the complex composition
      make 100 percent plus twice the LOI. */
  lemma ComplexAsWrittenOverflows(table: Composition)
    requires DryTable(table)
    ensures ComplexAsWritten(table).Ok? ==>
              var c := ComplexAsWritten(table).value;
              c.entries["hematite"] + c.entries["gangue"] + Loi(c) == 100.0 + 2.0 * Loi(table)
  {
    var w := WithGangueAnd(table, HematiteAsWritten(table));
    assert Loi(w) == Loi(table);
  }

  /** The hematite line does not decide acceptance: `hematite_normalise`
      computes the hematite iron from the gangue and LOI itself. */
  lemma AsWrittenSameCheck(table: Composition)
    requires "Fe" in table.entries
    ensures ComplexAsWritten(table).Ok? <==> Complex(table).Ok?
  {
    NormalisedWith(table, HematiteAsWritten(table));
    NormalisedWith(table, Hematite(table));
  }

  /** Whatever hematite entry is added, `hematite_normalise` accepts the
      table when its iron is within a point of the iron of what gangue and
      LOI leave, and then puts that iron in. */
  lemma NormalisedWith(table: Composition, hematite: real)
    requires "Fe" in table.entries
    ensures Normalised(WithGangueAnd(table, hematite), FromMolarMasses).Ok?
            <==> Abs(table.entries["Fe"] - IronIn(Hematite(table), FromMolarMasses)) <= 1.0
    ensures Normalised(WithGangueAnd(table, hematite), FromMolarMasses).Ok? ==>
              Normalised(WithGangueAnd(table, hematite), FromMolarMasses).value.entries
              == WithGangueAnd(table, hematite).entries["Fe" := IronIn(Hematite(table), FromMolarMasses)]
  {
    var w := WithGangueAnd(table, hematite);
    assert Loi(w) == Loi(table);
    assert HematiteIron(w, FromMolarMasses) == IronIn(Hematite(table), FromMolarMasses);
  }

  /** A dry table with the given total, iron and LOI. */
  ghost predicate Known(table: Composition, total: real, fe: real, loi: real) {
    DryTable(table) && SumValues(table) == total && table.entries["Fe"] == fe && Loi(table) == loi
  }

  /** The iron lies within a point of the iron of what the gangue and the
      LOI leave. */
  predicate IronClose(total: real, fe: real, loi: real) {
    Abs(fe - IronIn(100.0 - (total - fe - loi) - loi, FromMolarMasses)) <= 1.0
  }

  /** A dry table whose total is known is accepted when its iron lies within
      a point of the iron of what its gangue and LOI leave. */
  lemma ComplexAccepted(table: Composition, total: real, fe: real, loi: real)
    requires Known(table, total, fe, loi) && IronClose(total, fe, loi)
    ensures Complex(table).Ok?
  {
    ComplexBalances(table);
  }

  lemma IODAcceptedAsWritten()
    ensures ComplexAsWritten(IOD()).Ok?
  {
    IODAccepted();
    AsWrittenSameCheck(IOD());
  }

  lemma OreTableIOD()
    ensures OreTable("IOD") == IOD() && Loi(IOD()) == 8.2
  {
    assert Text.Upper("IOD") == "IOD";
  }

  /** Ore IOD (8.2 percent LOI) is accepted as written, and its hematite,
      gangue and LOI then make 116.4 percent. */
  lemma IodHematiteAsWritten()
    ensures ComplexAsWritten(OreTable("IOD")).Ok?
    ensures var c := ComplexAsWritten(OreTable("IOD")).value;
            c.entries["hematite"] + c.entries["gangue"] + Loi(c) == 116.4
  {
    OreTableIOD();
    IODAcceptedAsWritten();
    IODIsDry();
    ComplexAsWrittenOverflows(IOD());
  }

  // ---------------------------------------------------------------------
  // The simple composition

  /** The trace parts: the complex composition's total less its gangue,
      hematite, iron, four oxides and LOI. */
  function Neglected(c: Composition): real
    requires HasOxides(c) && "gangue" in c.entries && "hematite" in c.entries
  {
    SumValues(c) - c.entries["gangue"] - c.entries["hematite"] - c.entries["Fe"]
      - c.entries["SiO2"] - c.entries["Al2O3"] - c.entries["CaO"] - c.entries["MgO"] - Loi(c)
  }

  /** The iron and the four oxides, each oxide taking a quarter of the
      trace parts. */
  function OxideTable(c: Composition): (r: Composition)
    requires HasOxides(c) && "gangue" in c.entries && "hematite" in c.entries
    ensures HasOxides(r) && r.entries["Fe"] == c.entries["Fe"] && "LOI" !in r.entries
    ensures Oxides(r) == Oxides(c) + Neglected(c)
  {
    var n := Neglected(c) * 0.25;
    Dict(["Fe", "SiO2", "Al2O3", "CaO", "MgO"],
         map["Fe" := c.entries["Fe"], "SiO2" := c.entries["SiO2"] + n,
             "Al2O3" := c.entries["Al2O3"] + n, "CaO" := c.entries["CaO"] + n,
             "MgO" := c.entries["MgO"] + n])
  }

  /** The oxide table, with the LOI when the ore has one. */
  function SimpleTable(c: Composition): (r: Composition)
    requires HasOxides(c) && "gangue" in c.entries && "hematite" in c.entries
    ensures HasOxides(r) && r.entries["Fe"] == c.entries["Fe"] && Loi(r) == Loi(c)
    ensures Oxides(r) == Oxides(c) + Neglected(c)
  {
    var s := OxideTable(c);
    if "LOI" in c.entries then Put(s, "LOI", c.entries["LOI"]) else s
  }

  /** The simple table's gangue: its total less its iron and the complex
      composition's LOI. */
  function SimpleGangue(c: Composition): real
    requires HasOxides(c) && "gangue" in c.entries && "hematite" in c.entries
  {
    SumValues(SimpleTable(c)) - SimpleTable(c).entries["Fe"] - Loi(c)
  }

  /** The simple table with its gangue and hematite added. */
  function SimpleWithGangue(c: Composition): (r: Composition)
    requires HasOxides(c) && "gangue" in c.entries && "hematite" in c.entries
    ensures r.entries == SimpleTable(c).entries["gangue" := SimpleGangue(c)]
                                                ["hematite" := 100.0 - SimpleGangue(c) - Loi(c)]
  {
    Put(Put(SimpleTable(c), "gangue", SimpleGangue(c)), "hematite", 100.0 - SimpleGangue(c) - Loi(c))
  }

  /** The simple composition of `add_ore_composition`: the simple table
      gains gangue and hematite (the LOI taken from the complex
      composition) and is normalised. A missing part raises KeyError. */
  function Simple(c: Composition): Result<Composition>
  {
    if !(HasOxides(c) && "gangue" in c.entries && "hematite" in c.entries) then Err("KeyError")
    else Normalised(SimpleWithGangue(c), FromMolarMasses)
  }

  /** A complex composition that balances, with all its iron in the
      hematite, and a simple composition with the same iron, gangue,
      hematite and LOI whose four oxides make up the gangue. */
  predicate AgreeingPair(c: Composition, s: Composition) {
    HasOxides(c) && "gangue" in c.entries && "hematite" in c.entries
    && c.entries["hematite"] + c.entries["gangue"] + Loi(c) == 100.0
    && c.entries["Fe"] == IronIn(c.entries["hematite"], FromMolarMasses)
    && HasOxides(s) && "gangue" in s.entries && "hematite" in s.entries
    && s.entries["Fe"] == c.entries["Fe"] && s.entries["gangue"] == c.entries["gangue"]
    && s.entries["hematite"] == c.entries["hematite"] && Loi(s) == Loi(c)
    && Oxides(s) == c.entries["gangue"]
  }

  /** The complex and the simple composition of a dry ore table, with the
      corrected hematite line. */
  function Compositions(table: Composition): (r: Result<(Composition, Composition)>)
    requires DryTable(table)
    ensures r.Ok? ==> AgreeingPair(r.value.0, r.value.1)
  {
    ComplexBalances(table);
    var complex :- Complex(table);
    var simple :- Simple(complex);
    SimpleAgrees(table);
    Ok((complex, simple))
  }

  /** `add_ore_composition` of the low-emission copy, with the corrected
      hematite line: the compositions of the named ore's table. */
  function AddOreComposition(name: string): (r: Result<(Composition, Composition)>)
    ensures r.Ok? ==> AgreeingPair(r.value.0, r.value.1)
  {
    OreTablesAreDry(name);
    Compositions(OreTable(name))
  }

  /** The compositions of a dry ore table with the hematite line as written.
      It accepts exactly the tables the corrected one accepts and derives
      the same simple composition, since the simple table does not read the
      hematite entry; only the complex composition's hematite, gangue and
      LOI overshoot 100 percent, by twice the LOI. */
  function CompositionsAsWritten(table: Composition): (r: Result<(Composition, Composition)>)
    requires DryTable(table)
    ensures r.Ok? <==> Compositions(table).Ok?
    ensures r.Ok? ==> r.value.1 == Compositions(table).value.1
    ensures r.Ok? ==>
              var c := r.value.0;
              "gangue" in c.entries && "hematite" in c.entries
              && c.entries["hematite"] + c.entries["gangue"] + Loi(c) == 100.0 + 2.0 * Loi(table)
  {
    AsWrittenSameCheck(table);
    ComplexAsWrittenOverflows(table);
    if Complex(table).Err? then Err(ComplexAsWritten(table).msg)
    else
      var complex := ComplexAsWritten(table).value;
      ComplexAsWrittenIsComplexWith(table);
      SimpleIgnoresHematite(Complex(table).value, HematiteAsWritten(table));
      var simple :- Simple(complex);
      SimpleAgrees(table);
      Ok((complex, simple))
  }

  /** `add_ore_composition` of the low-emission copy as written. */
  function AddOreCompositionAsWritten(name: string): (r: Result<(Composition, Composition)>)
    ensures r.Ok? <==> AddOreComposition(name).Ok?
    ensures r.Ok? ==> r.value.1 == AddOreComposition(name).value.1
    ensures r.Ok? ==>
              var c := r.value.0;
              "gangue" in c.entries && "hematite" in c.entries
              && c.entries["hematite"] + c.entries["gangue"] + Loi(c) == 100.0 + 2.0 * Loi(OreTable(name))
  {
    OreTablesAreDry(name);
    CompositionsAsWritten(OreTable(name))
  }

  /** The as-written complex composition is the corrected one with only
      the hematite entry changed. */
  lemma ComplexAsWrittenIsComplexWith(table: Composition)
    requires DryTable(table) && Complex(table).Ok?
    ensures ComplexAsWritten(table).Ok?
    ensures ComplexAsWritten(table).value == Put(Complex(table).value, "hematite", HematiteAsWritten(table))
  {
    AsWrittenSameCheck(table);
    NormalisedWith(table, HematiteAsWritten(table));
    NormalisedWith(table, Hematite(table));
  }

  /** The simple composition reads the complex one's hematite only through
      the trace parts, where the total cancels it, so the hematite entry
      does not change it. */
  lemma SimpleIgnoresHematite(c: Composition, h: real)
    requires c.Valid() && HasOxides(c) && "gangue" in c.entries && "hematite" in c.entries
    ensures Simple(Put(c, "hematite", h)) == Simple(c)
  {
    var d := Put(c, "hematite", h);
    SumAfterPut(c, "hematite", h);
    assert d.entries["Fe"] == c.entries["Fe"] && Loi(d) == Loi(c) && Oxides(d) == Oxides(c);
    assert Neglected(d) == Neglected(c);
    assert SimpleTable(d) == SimpleTable(c) by {
      assert OxideTable(d) == OxideTable(c);
    }
    assert SimpleWithGangue(d) == SimpleWithGangue(c) by {
      assert SimpleGangue(d) == SimpleGangue(c);
    }
  }

  /** The total of the five-part simple table. */
  lemma SumOfFive(s: Composition)
    requires |s.order| == 5
    ensures SumValues(s) == GetOr(s, s.order[0], 0.0) + GetOr(s, s.order[1], 0.0) + GetOr(s, s.order[2], 0.0)
                            + GetOr(s, s.order[3], 0.0) + GetOr(s, s.order[4], 0.0)
  {
    assert SumFrom(s, 5) == 0.0;
    assert SumFrom(s, 4) == GetOr(s, s.order[4], 0.0);
    assert SumFrom(s, 3) == GetOr(s, s.order[3], 0.0) + SumFrom(s, 4);
    assert SumFrom(s, 2) == GetOr(s, s.order[2], 0.0) + SumFrom(s, 3);
    assert SumFrom(s, 1) == GetOr(s, s.order[1], 0.0) + SumFrom(s, 2);
  }

  /** The simple table's oxides carry the trace parts between them, so
      its gangue is the complex composition's oxides and trace parts. */
  lemma SimpleGangueIsOxides(c: Composition)
    requires HasOxides(c) && "gangue" in c.entries && "hematite" in c.entries
    ensures SimpleGangue(c) == Oxides(c) + Neglected(c)
  {
    var s := OxideTable(c);
    SumOfFive(s);
    assert s.Valid();
    if "LOI" in c.entries {
      PutKeepsValid(s, "LOI", c.entries["LOI"]);
      SumAfterPut(s, "LOI", c.entries["LOI"]);
    }
  }

  /** The corrected complex composition sums to the table, its gangue and
      hematite, with the iron replaced. */
  lemma ComplexSum(table: Composition)
    requires DryTable(table) && Complex(table).Ok?
    ensures Complex(table).value.Valid()
    ensures SumValues(Complex(table).value)
            == SumValues(table) + Gangue(table) + Hematite(table)
               - table.entries["Fe"] + Complex(table).value.entries["Fe"]
  {
    var w := WithGangueAnd(table, Hematite(table));
    SumWithGangueAnd(table, Hematite(table));
    PutKeepsValid(w, "Fe", HematiteIron(w, FromMolarMasses));
    SumAfterPut(w, "Fe", HematiteIron(w, FromMolarMasses));
  }

  /** The four oxides of a composition. */
  function Oxides(c: Composition): real
    requires HasOxides(c)
  {
    c.entries["SiO2"] + c.entries["Al2O3"] + c.entries["CaO"] + c.entries["MgO"]
  }

  /** In the corrected complex composition the trace parts are what the
      gangue holds besides the four oxides. */
  lemma ComplexNeglected(table: Composition)
    requires DryTable(table) && Complex(table).Ok?
    ensures HasOxides(Complex(table).value)
    ensures var c := Complex(table).value;
            Neglected(c) == c.entries["gangue"] - Oxides(c)
  {
    var c := Complex(table).value;
    ComplexSum(table);
    assert Loi(c) == Loi(table);
    assert Oxides(c) == Oxides(table);
  }

  /** A composition whose hematite is what gangue and LOI leave, whose iron
      is all in the hematite, and whose trace parts are its gangue less its
      oxides, yields a simple composition with the same iron, gangue,
      hematite and LOI, whose four oxides make up that gangue. */
  lemma SimpleOfBalanced(c: Composition)
    requires HasOxides(c) && "gangue" in c.entries && "hematite" in c.entries
    requires c.entries["hematite"] == 100.0 - c.entries["gangue"] - Loi(c)
    requires c.entries["Fe"] == IronIn(c.entries["hematite"], FromMolarMasses)
    requires Neglected(c) == c.entries["gangue"] - Oxides(c)
    ensures Simple(c).Ok?
    ensures var s := Simple(c).value;
            s.entries["Fe"] == c.entries["Fe"] && s.entries["gangue"] == c.entries["gangue"]
            && s.entries["hematite"] == c.entries["hematite"] && Loi(s) == Loi(c)
            && HasOxides(s) && Oxides(s) == c.entries["gangue"]
  {
    SimpleGangueIsOxides(c);
    var w := SimpleWithGangue(c);
    assert Loi(w) == Loi(c);
    assert HematiteIron(w, FromMolarMasses) == c.entries["Fe"];
  }

  /** The simple composition agrees with the corrected complex one: same
      iron, gangue, hematite and LOI, since the trace parts go to the
      oxides; so it is accepted whenever the complex one is, and its four
      oxides make up the complex gangue. */
  lemma SimpleAgrees(table: Composition)
    requires DryTable(table) && Complex(table).Ok?
    ensures Simple(Complex(table).value).Ok?
    ensures var c, s := Complex(table).value, Simple(Complex(table).value).value;
            s.entries["Fe"] == c.entries["Fe"] && s.entries["gangue"] == c.entries["gangue"]
            && s.entries["hematite"] == c.entries["hematite"] && Loi(s) == Loi(c)
            && HasOxides(s) && Oxides(s) == c.entries["gangue"]
  {
    ComplexBalances(table);
    ComplexNeglected(table);
    SimpleOfBalanced(Complex(table).value);
  }

  lemma IOAKnown() ensures Known(IOA(), 71.5, 66.31, 0.0) { IOAIsDry(); IOATotal(); IOAIronAndLoi(); }
  lemma IOAIronClose() ensures IronClose(71.5, 66.31, 0.0) { }
  lemma IOAAccepted() ensures Complex(IOA()).Ok? { IOAKnown(); IOAIronClose(); ComplexAccepted(IOA(), 71.5, 66.31, 0.0); }
  lemma IOBKnown() ensures Known(IOB(), 71.87, 65.47, 0.0) { IOBIsDry(); IOBTotal(); IOBIronAndLoi(); }
  lemma IOBIronClose() ensures IronClose(71.87, 65.47, 0.0) { }
  lemma IOBAccepted() ensures Complex(IOB()).Ok? { IOBKnown(); IOBIronClose(); ComplexAccepted(IOB(), 71.87, 65.47, 0.0); }
  lemma IOCKnown() ensures Known(IOC(), 74.89, 58.42, 7.2) { IOCIsDry(); IOCTotal(); IOCIronAndLoi(); }
  lemma IOCIronClose() ensures IronClose(74.89, 58.42, 7.2) { }
  lemma IOCAccepted() ensures Complex(IOC()).Ok? { IOCKnown(); IOCIronClose(); ComplexAccepted(IOC(), 74.89, 58.42, 7.2); }
  lemma IODKnown() ensures Known(IOD(), 75.64, 56.71, 8.2) { IODIsDry(); IODTotal(); IODIronAndLoi(); }
  lemma IODIronClose() ensures IronClose(75.64, 56.71, 8.2) { }
  lemma IODAccepted() ensures Complex(IOD()).Ok? { IODKnown(); IODIronClose(); ComplexAccepted(IOD(), 75.64, 56.71, 8.2); }
  lemma IOEKnown() ensures Known(IOE(), 75.47, 56.41, 8.8) { IOEIsDry(); IOETotal(); IOEIronAndLoi(); }
  lemma IOEIronClose() ensures IronClose(75.47, 56.41, 8.8) { }
  lemma IOEAccepted() ensures Complex(IOE()).Ok? { IOEKnown(); IOEIronClose(); ComplexAccepted(IOE(), 75.47, 56.41, 8.8); }
  lemma DefaultKnown() ensures Known(DefaultOre(), 72.03, 65.263, 0.0) { DefaultIsDry(); DefaultTotal(); DefaultIronAndLoi(); }
  lemma DefaultIronClose() ensures IronClose(72.03, 65.263, 0.0) { }
  lemma DefaultAccepted() ensures Complex(DefaultOre()).Ok? { DefaultKnown(); DefaultIronClose(); ComplexAccepted(DefaultOre(), 72.03, 65.263, 0.0); }

  /** Every ore table passes the corrected complex step. */
  lemma TableAccepted(name: string)
    ensures DryTable(OreTable(name)) && Complex(OreTable(name)).Ok?
  {
    OreTablesAreDry(name);
    var n := Text.Upper(name);
    if n == "IOA" { IOAAccepted(); }
    else if n == "IOB" { IOBAccepted(); }
    else if n == "IOC" { IOCAccepted(); }
    else if n == "IOD" { IODAccepted(); }
    else if n == "IOE" { IOEAccepted(); }
    else { DefaultAccepted(); }
  }

  /** Every ore name yields both compositions: each table's iron lies
      within a point of its hematite's iron. */
  lemma AddOreCompositionAccepts(name: string)
    ensures AddOreComposition(name).Ok?
  {
    TableAccepted(name);
    SimpleAgrees(OreTable(name));
  }

  // ---------------------------------------------------------------------
  // examples/steel_mass_energy.py

  /** Gangue and hematite as examples/steel_mass_energy.py adds them: no
      LOI, hematite is what the gangue leaves, and the iron is put in the
      hematite unchecked. */
  function WithGangueUnchecked(table: Composition): Result<Composition>
  {
    if "Fe" !in table.entries then Err("KeyError: 'Fe'")
    else
      var gangue := SumValues(table) - table.entries["Fe"];
      NormalisedUnchecked(Put(Put(table, "gangue", gangue), "hematite", 100.0 - gangue))
  }

  /** Its `add_ore_composition`: both the complex and the written-out simple
      composition of the default ore. */
  function AddOreCompositionFixed(): (r: Result<(Composition, Composition)>)
    ensures r.Ok? ==>
              var c, s := r.value.0, r.value.1;
              "gangue" in c.entries && "hematite" in c.entries && "Fe" in c.entries
              && "gangue" in s.entries && "hematite" in s.entries && "Fe" in s.entries
              && c.entries["hematite"] + c.entries["gangue"] == 100.0
              && s.entries["hematite"] + s.entries["gangue"] == 100.0
              && c.entries["Fe"] == IronIn(c.entries["hematite"], FromMolarMasses)
              && s.entries["Fe"] == IronIn(s.entries["hematite"], FromMolarMasses)
  {
    var complex :- WithGangueUnchecked(DefaultOre());
    var simple :- WithGangueUnchecked(DefaultSimpleOre());
    WithGangueUncheckedBalances(DefaultOre());
    WithGangueUncheckedBalances(DefaultSimpleOre());
    Ok((complex, simple))
  }

  /** Hematite and gangue make 100 percent and all the iron is in the
      hematite. */
  lemma WithGangueUncheckedBalances(table: Composition)
    ensures WithGangueUnchecked(table).Ok? <==> "Fe" in table.entries
    ensures WithGangueUnchecked(table).Ok? ==>
              var c := WithGangueUnchecked(table).value;
              c.entries["hematite"] + c.entries["gangue"] == 100.0
              && c.entries["gangue"] + table.entries["Fe"] == SumValues(table)
              && c.entries["Fe"] == IronIn(c.entries["hematite"], FromMolarMasses)
  {
  }

  /** Two tables with the same iron and the same total get the same gangue,
      hematite and hematite iron. */
  lemma SameTotalsAgree(t1: Composition, t2: Composition)
    requires "Fe" in t1.entries && "Fe" in t2.entries
    requires t1.entries["Fe"] == t2.entries["Fe"] && SumValues(t1) == SumValues(t2)
    ensures WithGangueUnchecked(t1).Ok? && WithGangueUnchecked(t2).Ok?
    ensures var c, s := WithGangueUnchecked(t1).value, WithGangueUnchecked(t2).value;
            c.entries["gangue"] == s.entries["gangue"] && c.entries["hematite"] == s.entries["hematite"]
            && c.entries["Fe"] == s.entries["Fe"]
  {
    WithGangueUncheckedBalances(t1);
    WithGangueUncheckedBalances(t2);
  }

  /** The written-out simple table is the default ore with its trace parts
      shared out evenly: the two have the same gangue and hematite. */
  lemma FixedCompositionsAgree()
    ensures AddOreCompositionFixed().Ok?
    ensures var (c, s) := AddOreCompositionFixed().value;
            c.entries["gangue"] == s.entries["gangue"] && c.entries["hematite"] == s.entries["hematite"]
            && c.entries["Fe"] == s.entries["Fe"]
  {
    var t1, t2 := DefaultOre(), DefaultSimpleOre();
    DefaultTotal();
    DefaultSimpleTotal();
    DefaultIronAndLoi();
    DefaultSimpleIron();
    SameTotalsAgree(t1, t2);
    assert AddOreCompositionFixed() == Ok((WithGangueUnchecked(t1).value, WithGangueUnchecked(t2).value));
  }

  /** Adding gangue and hematite leaves the other parts alone. */
  lemma WithGangueUncheckedKeeps(table: Composition, k: string)
    requires "Fe" in table.entries && k in table.entries && k != "gangue" && k != "hematite" && k != "Fe"
    ensures WithGangueUnchecked(table).Ok?
    ensures k in WithGangueUnchecked(table).value.entries
            && WithGangueUnchecked(table).value.entries[k] == table.entries[k]
  {
  }

  /** A table whose parts besides iron make less than 100 percent gets
      positive hematite iron. */
  lemma WithGangueUncheckedIron(table: Composition)
    requires "Fe" in table.entries && SumValues(table) - table.entries["Fe"] < 100.0
    ensures WithGangueUnchecked(table).Ok?
    ensures "Fe" in WithGangueUnchecked(table).value.entries && WithGangueUnchecked(table).value.entries["Fe"] > 0.0
  {
    WithGangueUncheckedBalances(table);
  }

  lemma DefaultSimpleOxides()
    ensures "Fe" in DefaultSimpleOre().entries
    ensures "SiO2" in DefaultSimpleOre().entries && DefaultSimpleOre().entries["SiO2"] == 3.91375
    ensures "Al2O3" in DefaultSimpleOre().entries && DefaultSimpleOre().entries["Al2O3"] == 2.53675
    ensures "CaO" in DefaultSimpleOre().entries && DefaultSimpleOre().entries["CaO"] == 0.13175
    ensures "MgO" in DefaultSimpleOre().entries && DefaultSimpleOre().entries["MgO"] == 0.18475
    ensures SumValues(DefaultSimpleOre()) - DefaultSimpleOre().entries["Fe"] < 100.0
  {
  }

  /** The simple composition of examples/steel_mass_energy.py keeps its
      written-out oxides, and its iron, that of the 93.233 percent hematite,
      is positive. */
  lemma FixedSimpleOre()
    ensures WithGangueUnchecked(DefaultSimpleOre()).Ok?
    ensures var s := WithGangueUnchecked(DefaultSimpleOre()).value;
            "Fe" in s.entries && s.entries["Fe"] > 0.0
            && "SiO2" in s.entries && s.entries["SiO2"] == 3.91375
            && "Al2O3" in s.entries && s.entries["Al2O3"] == 2.53675
            && "CaO" in s.entries && s.entries["CaO"] == 0.13175
            && "MgO" in s.entries && s.entries["MgO"] == 0.18475
  {
    var t := DefaultSimpleOre();
    DefaultSimpleOxides();
    WithGangueUncheckedIron(t);
    WithGangueUncheckedKeeps(t, "SiO2");
    WithGangueUncheckedKeeps(t, "Al2O3");
    WithGangueUncheckedKeeps(t, "CaO");
    WithGangueUncheckedKeeps(t, "MgO");
  }

  /** Its `add_ore_composition` stores that simple composition. */
  lemma FixedSimpleStored()
    ensures AddOreCompositionFixed().Ok?
    ensures AddOreCompositionFixed().value.1 == WithGangueUnchecked(DefaultSimpleOre()).value
  {
    FixedCompositionsAgree();
  }
}
