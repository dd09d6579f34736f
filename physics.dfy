/**
 * The measured Type Ia supernova yields that `SNIa_yields` in physics.py
 * starts from. In the source this dictionary is local to `SNIa_yields`. Here
 * it is a module with no imports, so that the proof about its keys does not
 * see the element tables.
 */
module ThielemannYields {

  /**
   * The measured yields of `yields_dict` in solar masses: the total and metal
   * masses, and per element from carbon to germanium (Thielemann et al. 1986,
   * table 5) its isotopes summed.
   */
  const MeasuredYields: map<string, real> := map[
    "C" := 5.0e-2 + 4.5e-13,
    "N" := 2.7e-9 + 4.4e-9,
    "O" := 1.3e-1 + 1.1e-10 + 1.7e-12,
    "F" := 2.5e-13,
    "Ne" := 1.8e-3 + 1.1e-8 + 2.5e-3,
    "Na" := 1.8e-6,
    "Mg" := 1.6e-6 + 5.8e-6 + 4.0e-6,
    "Al" := 4.4e-4,
    "Si" := 1.5e-1 + 3.0e-4 + 3.4e-3,
    "P" := 1.4e-4,
    "S" := 8.2e-2 + 7.2e-4 + 1.5e-3 + 2.5e-8,
    "Cl" := 1.2e-4 + 2.8e-5,
    "Ar" := 1.7e-2 + 1.2e-3,
    "K" := 9.9e-5 + 6.6e-6,
    "Ca" := 1.5e-2 + 3.6e-5 + 4.2e-8 + 1.8e-5 + 1.3e-9 + 5.7e-12,
    "Sc" := 1.6e-7,
    "Ti" := 1.9e-5 + 3.1e-7 + 2.0e-4 + 9.3e-6 + 1.6e-6,
    "V" := 5.0e-9 + 2.8e-5,
    "Cr" := 2.3e-4 + 5.2e-3 + 6.6e-4 + 3.8e-5,
    "Mn" := 6.7e-3,
    "Fe" := 9.0e-2 + 6.3e-1 + 2.2e-2 + 2.5e-4,
    "Co" := 7.3e-4,
    "Ni" := 1.3e-2 + 1.4e-2 + 2.4e-4 + 5.1e-3 + 2.6e-7,
    "Cu" := 2.0e-6 + 8.5e-6,
    "Zn" := 1.3e-5 + 1.9e-5 + 8.2e-8 + 3.5e-7 + 1.0e-9,
    "Ga" := 1.0e-7 + 6.1e-9,
    "Ge" := 8.4e-7 + 5.7e-8 + 8.1e-11 + 1.8e-8,
    "m_metal" := 1.2447714757,
    "m_tot" := 1.2447714757
  ]

  /** The keys of the measured table: the two totals and the elements carbon to germanium. */
  const MeasuredKeys: set<string> :=
    {"m_tot", "m_metal", "C", "N", "O", "F", "Ne", "Na", "Mg", "Al", "Si", "P", "S", "Cl",
     "Ar", "K", "Ca", "Sc", "Ti", "V", "Cr", "Mn", "Fe", "Co", "Ni", "Cu", "Zn", "Ga", "Ge"}

  /** The measured keys are exactly the two totals and the elements carbon to germanium. */
  lemma MeasuredKeysListed()
    ensures MeasuredYields.Keys == MeasuredKeys
  {
  }
}

/**
 * The discrete parts of physics.py: the Type Ia supernova yield table with
 * its three ways of answering a request, and the initial-to-final mass rule
 * for white dwarfs.
 */
module Physics {
  import opened Constants
  import opened ThielemannYields

  /** The elements with no Type Ia yield, in the order the zero-fill loop visits them. */
  const ZeroElements: seq<string> :=
    ["H", "He", "Li", "Be", "B", "As", "Se", "Br", "Kr", "Rb", "Sr", "Y", "Zr"] +
    ["Nb", "Mo", "Tc", "Ru", "Rh", "Pd", "Ag", "Cd", "In", "Sn", "Sb", "Te", "I"] +
    ["Xe", "Cs", "Ba", "La", "Ce", "Pr", "Nd", "Pm", "Sm", "Eu", "Gd", "Tb", "Dy"] +
    ["Ho", "Er", "Tm", "Yb", "Lu", "Hf", "Ta", "W", "Re", "Os", "Ir", "Pt", "Au"] +
    ["Hg", "Tl", "Pb", "Bi"]

  lemma MeasuredNumbersToCl(s: string)
    requires s == "m_tot" || s == "m_metal" || s == "C" || s == "N" || s == "O" || s == "F" || s == "Ne" || s == "Na" || s == "Mg" || s == "Al" || s == "Si" || s == "P" || s == "S" || s == "Cl"
    ensures AtomicNumber(s) == 0 || 6 <= AtomicNumber(s) <= 32
  {
  }

  lemma MeasuredNumbersFromAr(s: string)
    requires s == "Ar" || s == "K" || s == "Ca" || s == "Sc" || s == "Ti" || s == "V" || s == "Cr" || s == "Mn" || s == "Fe" || s == "Co" || s == "Ni" || s == "Cu" || s == "Zn" || s == "Ga" || s == "Ge"
    ensures 6 <= AtomicNumber(s) <= 32
  {
  }

  /** The measured keys are the totals (no atomic number) and the elements carbon to germanium. */
  lemma MeasuredNumbers(s: string)
    requires s in MeasuredKeys
    ensures AtomicNumber(s) == 0 || 6 <= AtomicNumber(s) <= 32
  {
    if s == "m_tot" || s == "m_metal" || s == "C" || s == "N" || s == "O" || s == "F" || s == "Ne" || s == "Na" || s == "Mg" || s == "Al" || s == "Si" || s == "P" || s == "S" || s == "Cl" {
      MeasuredNumbersToCl(s);
    } else {
      MeasuredNumbersFromAr(s);
    }
  }

  lemma ZeroNumbered0To5(i: nat)
    requires 0 <= i < 5
    ensures AtomicNumber(ZeroElements[i]) == i + 1
  {}

  lemma ZeroNumbered5To10(i: nat)
    requires 5 <= i < 10
    ensures AtomicNumber(ZeroElements[i]) == i + 28
  {}

  lemma ZeroNumbered10To20(i: nat)
    requires 10 <= i < 20
    ensures AtomicNumber(ZeroElements[i]) == i + 28
  {}

  lemma ZeroNumbered20To30(i: nat)
    requires 20 <= i < 30
    ensures AtomicNumber(ZeroElements[i]) == i + 28
  {}

  lemma ZeroNumbered30To40(i: nat)
    requires 30 <= i < 40
    ensures AtomicNumber(ZeroElements[i]) == i + 28
  {}

  lemma ZeroNumbered40To50(i: nat)
    requires 40 <= i < 50
    ensures AtomicNumber(ZeroElements[i]) == i + 28
  {}

  lemma ZeroNumbered50To56(i: nat)
    requires 50 <= i < 56
    ensures AtomicNumber(ZeroElements[i]) == i + 28
  {}

  /** The zero-filled symbols are exactly the elements 1..5 and 33..83, in order. */
  lemma ZeroNumbers(i: nat)
    requires i < |ZeroElements|
    ensures |ZeroElements| == 56
    ensures AtomicNumber(ZeroElements[i]) == if i < 5 then i + 1 else i + 28
  {
    if i < 5 {
      ZeroNumbered0To5(i);
    } else if i < 10 {
      ZeroNumbered5To10(i);
    } else if i < 20 {
      ZeroNumbered10To20(i);
    } else if i < 30 {
      ZeroNumbered20To30(i);
    } else if i < 40 {
      ZeroNumbered30To40(i);
    } else if i < 50 {
      ZeroNumbered40To50(i);
    } else {
      ZeroNumbered50To56(i);
    }
  }

  /** No zero-filled symbol is a measured key, so the zero fill overwrites no measured entry. */
  lemma ZeroElementsUnmeasured()
    ensures forall s :: s in ZeroElements ==> s !in MeasuredYields
  {
    forall s | s in ZeroElements
      ensures s !in MeasuredYields
    {
      var i :| 0 <= i < |ZeroElements| && ZeroElements[i] == s;
      ZeroNumbers(i);
      if s in MeasuredYields {
        MeasuredKeysListed();
        MeasuredNumbers(s);
      }
    }
  }

  /** The loop `for e in zero_elements: yields_dict[e] = 0.0`. */
  method ZeroFill(d0: map<string, real>, zeros: seq<string>) returns (d: map<string, real>)
    ensures d.Keys == d0.Keys + (set s | s in zeros)
    ensures forall s :: s in zeros ==> d[s] == 0.0
    ensures forall s :: s in d0 && s !in zeros ==> d[s] == d0[s]
  {
    d := d0;
    for k := 0 to |zeros|
      invariant d.Keys == d0.Keys + (set s | s in zeros[..k])
      invariant forall s :: s in zeros[..k] ==> s in d && d[s] == 0.0
      invariant forall s :: s in d0 && s !in zeros[..k] ==> s in d && d[s] == d0[s]
    {
      assert zeros[..k + 1] == zeros[..k] + [zeros[k]];
      d := d[zeros[k] := 0.0];
    }
    assert zeros[..|zeros|] == zeros;
  }

  /**
   * The dictionary after zero-filling `zeros` into `measured`: every key of
   * either, with 0.0 for the zero-filled ones.
   */
  function Filled(measured: map<string, real>, zeros: seq<string>): (t: map<string, real>)
    ensures t.Keys == measured.Keys + (set s | s in zeros)
    ensures forall s :: s in zeros ==> t[s] == 0.0
    ensures forall s :: s in measured && s !in zeros ==> t[s] == measured[s]
  {
    map s | s in measured.Keys + (set z | z in zeros) :: if s in zeros then 0.0 else measured[s]
  }

  /** The yield table: the measured entries are unchanged by the fill, since no zero-filled symbol is measured. */
  function YieldTable(): (t: map<string, real>)
    ensures t.Keys == MeasuredYields.Keys + (set s | s in ZeroElements)
    ensures forall i :: 0 <= i < |ZeroElements| ==> t[ZeroElements[i]] == 0.0
    ensures forall s :: s in MeasuredYields ==> t[s] == MeasuredYields[s]
  {
    ZeroElementsUnmeasured();
    Filled(MeasuredYields, ZeroElements)
  }

  /** The total ejected mass equals the metal mass. */
  lemma TotalIsMetal()
    ensures "m_tot" in MeasuredYields && "m_metal" in MeasuredYields
    ensures MeasuredYields["m_tot"] == MeasuredYields["m_metal"] == 1.2447714757
  {
  }

  /** What `SNIa_yields` is asked for: one atomic symbol, or a list of them. */
  datatype Request = Symbol(sym: string) | Symbols(syms: seq<string>)

  /** What `SNIa_yields` answers: the whole table, one yield, an array of yields, or the KeyError raised for a missing key. */
  datatype Answer = Table(table: map<string, real>) | Scalar(value: real) | Vector(values: seq<real>) | KeyError(key: string)

  /** `yields_dict[elements]` for a single symbol. */
  function LookupOne(t: map<string, real>, sym: string): (r: Answer)
    ensures r.Scalar? <==> sym in t
    ensures r.Scalar? ==> r.value == t[sym]
    ensures r.KeyError? ==> r.key == sym
    ensures r.Scalar? || r.KeyError?
  {
    if sym in t then Scalar(t[sym]) else KeyError(sym)
  }

  /**
   * `[yields_dict[x] for x in elements]`: the yields in request order, or the
   * KeyError of the first symbol that is not in the table.
   */
  function LookupAll(t: map<string, real>, syms: seq<string>): (r: Answer)
    ensures r.Vector? || r.KeyError?
    ensures r.Vector? <==> forall k :: 0 <= k < |syms| ==> syms[k] in t
    ensures r.Vector? ==> |r.values| == |syms| && forall k :: 0 <= k < |syms| ==> r.values[k] == t[syms[k]]
    ensures r.KeyError? ==> exists k :: 0 <= k < |syms| && syms[k] == r.key && r.key !in t && forall j :: 0 <= j < k ==> syms[j] in t
    decreases |syms|
  {
    if |syms| == 0 then Vector([])
    else if syms[0] !in t then KeyError(syms[0])
    else
      var rest := LookupAll(t, syms[1..]);
      assert forall k :: 1 <= k < |syms| ==> syms[k] == syms[1..][k - 1];
      if rest.KeyError? then rest else Vector([t[syms[0]]] + rest.values)
  }

  /**
   * `SNIa_yields(elements, return_dict)`: builds the table with the zero fill,
   * then returns the whole table (ignoring `elements`), one yield, or the
   * array of yields.
   */
  method SNIaYields(elements: Request, returnDict: bool) returns (r: Answer)
    ensures returnDict ==> r == Table(YieldTable())
    ensures !returnDict && elements.Symbol? ==> r == LookupOne(YieldTable(), elements.sym)
    ensures !returnDict && elements.Symbols? ==> r == LookupAll(YieldTable(), elements.syms)
  {
    var table := ZeroFill(MeasuredYields, ZeroElements);
    assert table == YieldTable();
    if returnDict {
      return Table(table);
    }
    match elements
    case Symbol(sym) =>
      r := LookupOne(table, sym);
    case Symbols(syms) =>
      r := LookupAll(table, syms);
  }

  /** Every element the table knows, numbered or measured, has an answer; anything else is a KeyError. */
  lemma YieldKnownIff(sym: string)
    ensures LookupOne(YieldTable(), sym).Scalar? <==> sym in MeasuredYields || sym in ZeroElements
  {
  }

  /**
   * The Salaris et al. (2009) initial-to-final mass relation. The lower
   * branch is used exactly for the masses whose white dwarf is lighter than
   * 0.867, the value both branches give at 4.
   */
  function WhiteDwarfMass(m: real): (wd: real)
    ensures m < 4.0 <==> wd < 0.867
    ensures m >= 0.0 ==> wd >= 0.331
  {
    if m < 4.0 then 0.134 * m + 0.331 else 0.047 * m + 0.679
  }

  /** The two branches meet at 4 solar masses, so the relation is continuous. */
  lemma WhiteDwarfMassContinuous()
    ensures 0.134 * 4.0 + 0.331 == 0.867 == 0.047 * 4.0 + 0.679
    ensures WhiteDwarfMass(4.0) == 0.867
  {
  }

  /** A heavier progenitor leaves a heavier white dwarf. */
  lemma WhiteDwarfMassIncreasing(m1: real, m2: real)
    requires m1 < m2
    ensures WhiteDwarfMass(m1) < WhiteDwarfMass(m2)
  {
  }

  /** From half a solar mass up, the white dwarf is lighter than its progenitor. */
  lemma WhiteDwarfLighterThanProgenitor(m: real)
    requires m >= 0.5
    ensures WhiteDwarfMass(m) < m
  {
  }
}
