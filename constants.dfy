/**
 * The element lookup tables of onezone/constants.py: the element-symbol list,
 * the symbol -> atomic-number map (an OrderedDict filled in list order) and its
 * inverse, and the solar-abundance and molecular-weight tables, whose numeric
 * keys 1..83 are "doubled up" with the matching element symbols.
 */
module Constants {
  import opened Wrappers

  /** No element of `s` occurs twice. */
  predicate Distinct<T(==)>(s: seq<T>) {
    forall i, j :: 0 <= i < j < |s| ==> s[i] != s[j]
  }

  /** The element symbols, H (atomic number 1) to Bi (83), one row per line of the source list. */
  const Elements: seq<string> :=
    ["H", "He", "Li", "Be", "B", "C", "N", "O", "F"]
    + ["Ne", "Na", "Mg", "Al", "Si", "P", "S"]
    + ["Cl", "Ar", "K", "Ca", "Sc", "Ti"]
    + ["V", "Cr", "Mn", "Fe", "Co", "Ni", "Cu"]
    + ["Zn", "Ga", "Ge", "As", "Se", "Br", "Kr"]
    + ["Rb", "Sr", "Y", "Zr", "Nb", "Mo", "Tc"]
    + ["Ru", "Rh", "Pd", "Ag", "Cd", "In", "Sn"]
    + ["Sb", "Te", "I", "Xe", "Cs", "Ba", "La"]
    + ["Ce", "Pr", "Nd", "Pm", "Sm", "Eu", "Gd"]
    + ["Tb", "Dy", "Ho", "Er", "Tm", "Yb", "Lu"]
    + ["Hf", "Ta", "W", "Re", "Os", "Ir", "Pt"]
    + ["Au", "Hg", "Tl", "Pb", "Bi"]

  /** The number of elements the tables cover. */
  const ElementCount: nat := 83

  /**
   * An independent reference numbering of the symbols, written as a table
   * rather than derived from the list: the periodic-table number of a symbol,
   * and 0 for every other string.
   */
  function AtomicNumber(sym: string): nat {
    match sym
    case "H" => 1 case "He" => 2 case "Li" => 3 case "Be" => 4 case "B" => 5 case "C" => 6
    case "N" => 7 case "O" => 8 case "F" => 9 case "Ne" => 10 case "Na" => 11 case "Mg" => 12
    case "Al" => 13 case "Si" => 14 case "P" => 15 case "S" => 16 case "Cl" => 17 case "Ar" => 18
    case "K" => 19 case "Ca" => 20 case "Sc" => 21 case "Ti" => 22 case "V" => 23 case "Cr" => 24
    case "Mn" => 25 case "Fe" => 26 case "Co" => 27 case "Ni" => 28 case "Cu" => 29 case "Zn" => 30
    case "Ga" => 31 case "Ge" => 32 case "As" => 33 case "Se" => 34 case "Br" => 35 case "Kr" => 36
    case "Rb" => 37 case "Sr" => 38 case "Y" => 39 case "Zr" => 40 case "Nb" => 41 case "Mo" => 42
    case "Tc" => 43 case "Ru" => 44 case "Rh" => 45 case "Pd" => 46 case "Ag" => 47 case "Cd" => 48
    case "In" => 49 case "Sn" => 50 case "Sb" => 51 case "Te" => 52 case "I" => 53 case "Xe" => 54
    case "Cs" => 55 case "Ba" => 56 case "La" => 57 case "Ce" => 58 case "Pr" => 59 case "Nd" => 60
    case "Pm" => 61 case "Sm" => 62 case "Eu" => 63 case "Gd" => 64 case "Tb" => 65 case "Dy" => 66
    case "Ho" => 67 case "Er" => 68 case "Tm" => 69 case "Yb" => 70 case "Lu" => 71 case "Hf" => 72
    case "Ta" => 73 case "W" => 74 case "Re" => 75 case "Os" => 76 case "Ir" => 77 case "Pt" => 78
    case "Au" => 79 case "Hg" => 80 case "Tl" => 81 case "Pb" => 82 case "Bi" => 83
    case _ => 0
  }

  // The numbering agrees with the list; the proof is split into chunks that
  // the solver can unfold one at a time.

  lemma NumberedFrom1To10(i: int)
    requires 0 <= i < 10
    ensures AtomicNumber(Elements[i]) == i + 1
  {}

  lemma NumberedFrom11To20(i: int)
    requires 10 <= i < 20
    ensures AtomicNumber(Elements[i]) == i + 1
  {}

  lemma NumberedFrom21To30(i: int)
    requires 20 <= i < 30
    ensures AtomicNumber(Elements[i]) == i + 1
  {}

  lemma NumberedFrom31To40(i: int)
    requires 30 <= i < 40
    ensures AtomicNumber(Elements[i]) == i + 1
  {}

  lemma NumberedFrom41To50(i: int)
    requires 40 <= i < 50
    ensures AtomicNumber(Elements[i]) == i + 1
  {}

  lemma NumberedFrom51To60(i: int)
    requires 50 <= i < 60
    ensures AtomicNumber(Elements[i]) == i + 1
  {}

  lemma NumberedFrom61To70(i: int)
    requires 60 <= i < 70
    ensures AtomicNumber(Elements[i]) == i + 1
  {}

  lemma NumberedFrom71To77(i: int)
    requires 70 <= i < 77
    ensures AtomicNumber(Elements[i]) == i + 1
  {}

  lemma NumberedFrom78To83(i: int)
    requires 77 <= i < 83
    ensures AtomicNumber(Elements[i]) == i + 1
  {}

  /** The symbol at list position i is the symbol of element i + 1. */
  lemma ElementsNumbered(i: int)
    requires 0 <= i < |Elements|
    ensures |Elements| == ElementCount
    ensures AtomicNumber(Elements[i]) == i + 1
  {
    if i < 10 {
      NumberedFrom1To10(i);
    } else if i < 20 {
      NumberedFrom11To20(i);
    } else if i < 30 {
      NumberedFrom21To30(i);
    } else if i < 40 {
      NumberedFrom31To40(i);
    } else if i < 50 {
      NumberedFrom41To50(i);
    } else if i < 60 {
      NumberedFrom51To60(i);
    } else if i < 70 {
      NumberedFrom61To70(i);
    } else if i < 77 {
      NumberedFrom71To77(i);
    } else {
      NumberedFrom78To83(i);
    }
  }

  /** The symbol list has 83 entries and no duplicates. */
  lemma ElementsDistinct()
    ensures |Elements| == ElementCount
    ensures Distinct(Elements)
  {
    forall i, j | 0 <= i < j < |Elements|
      ensures Elements[i] != Elements[j]
    {
      ElementsNumbered(i);
      ElementsNumbered(j);
    }
  }

  /** Every listed symbol has a nonzero reference number, so no other string (such as "m_tot") is listed. */
  lemma ListedSymbolsAreNumbered(s: string)
    requires s in Elements
    ensures 1 <= AtomicNumber(s) <= ElementCount
  {
    var i :| 0 <= i < |Elements| && Elements[i] == s;
    ElementsNumbered(i);
  }

  lemma {:induction false} DistinctCardinality<T>(s: seq<T>)
    requires Distinct(s)
    ensures |set x | x in s| == |s|
  {
    if s != [] {
      var init := s[..|s| - 1];
      assert Distinct(init);
      DistinctCardinality(init);
      assert (set x | x in s) == (set x | x in init) + {s[|s| - 1]};
      assert s[|s| - 1] !in init;
    }
  }

  /** Under a map that is injective on a duplicate-free `order`, the image of `order` has |order| elements. */
  lemma {:induction false} InjectiveImageCardinality<K, V>(order: seq<K>, items: map<K, V>)
    requires Distinct(order)
    requires forall k :: k in order ==> k in items
    requires forall k, k' :: k in order && k' in order && items[k] == items[k'] ==> k == k'
    ensures |set k | k in order :: items[k]| == |order|
  {
    if order != [] {
      var init, last := order[..|order| - 1], order[|order| - 1];
      assert Distinct(init);
      InjectiveImageCardinality(init, items);
      assert (set k | k in order :: items[k]) == (set k | k in init :: items[k]) + {items[last]};
      assert items[last] !in (set k | k in init :: items[k]);
    }
  }

  /**
   * Python's OrderedDict: a map together with the order in which its keys
   * were first inserted.
   */
  class OrderedDict<K(==, !new), V> {
    var order: seq<K>
    var items: map<K, V>

    ghost predicate Valid()
      reads this
    {
      && (forall k :: k in items <==> k in order)
      && Distinct(order)
    }

    constructor ()
      ensures Valid()
      ensures order == [] && items == map[]
    {
      order := [];
      items := map[];
    }

    /** `d[k] = v`: a new key goes to the end of the order, an existing key keeps its place. */
    method SetItem(k: K, v: V)
      requires Valid()
      modifies this
      ensures Valid()
      ensures items == old(items)[k := v]
      ensures order == if k in old(items) then old(order) else old(order) + [k]
    {
      if k !in items {
        order := order + [k];
      }
      items := items[k := v];
    }
  }

  /**
   * The dictionary comprehension `{v: k for k, v in d.items()}` over an
   * OrderedDict: the items are visited in key order, and a later key with the
   * same value overwrites an earlier one.
   */
  function InvertItems<K, V>(order: seq<K>, items: map<K, V>): (inv: map<V, K>)
    requires forall k :: k in order ==> k in items
    ensures inv.Keys == set k | k in order :: items[k]
    ensures forall k :: k in order ==> inv[items[k]] in order && items[inv[items[k]]] == items[k]
    decreases |order|
  {
    if order == [] then map[]
    else
      var init, last := order[..|order| - 1], order[|order| - 1];
      assert order == init + [last];
      assert (set k | k in order :: items[k]) == (set k | k in init :: items[k]) + {items[last]};
      InvertItems(init, items)[items[last] := last]
  }

  /**
   * The loop of `_make_conversion_dictionaries` that sets `x[els[i-1]] = i` for
   * i = 1..len(els) (here indexed from 0), filling an OrderedDict; returns its
   * key order and its items.
   */
  method NumberInOrder(els: seq<string>) returns (order: seq<string>, items: map<string, int>)
    requires Distinct(els)
    ensures order == els
    ensures items.Keys == set s | s in els
    ensures forall i :: 0 <= i < |els| ==> items[els[i]] == i + 1
  {
    var x := new OrderedDict<string, int>();
    for i := 0 to |els|
      invariant x.Valid()
      invariant x.order == els[..i]
      invariant forall j :: 0 <= j < i ==> els[j] in x.items && x.items[els[j]] == j + 1
    {
      assert els[i] !in els[..i];
      x.SetItem(els[i], i + 1);
      assert x.order == els[..i + 1];
    }
    assert els[..|els|] == els;
    order, items := x.order, x.items;
  }

  /**
   * `_make_conversion_dictionaries`: `asym_to_anum` numbers the element list
   * 1..83 in list order, keeping that order; `anum_to_asym` is its inverse.
   */
  method MakeConversionDictionaries() returns (order: seq<string>, asymToAnum: map<string, int>, anumToAsym: map<int, string>)
    ensures order == Elements
    ensures asymToAnum.Keys == set s | s in Elements
    ensures forall i :: 0 <= i < |Elements| ==> asymToAnum[Elements[i]] == i + 1
    ensures forall s :: s in asymToAnum ==> asymToAnum[s] == AtomicNumber(s)
    ensures forall n :: n in anumToAsym <==> 1 <= n <= ElementCount
    ensures forall i :: 0 <= i < |Elements| ==> anumToAsym[i + 1] == Elements[i]
    ensures forall s :: s in asymToAnum ==> asymToAnum[s] in anumToAsym && anumToAsym[asymToAnum[s]] == s
    ensures forall n :: n in anumToAsym ==> anumToAsym[n] in asymToAnum && asymToAnum[anumToAsym[n]] == n
    ensures |asymToAnum| == |anumToAsym| == ElementCount
  {
    ElementsDistinct();
    order, asymToAnum, anumToAsym := NumberAndInvert(Elements);
    NumberingAgrees(asymToAnum);
  }

  /** The two steps of MakeConversionDictionaries on any duplicate-free list of symbols. */
  method NumberAndInvert(els: seq<string>) returns (order: seq<string>, asymToAnum: map<string, int>, anumToAsym: map<int, string>)
    requires Distinct(els)
    ensures order == els
    ensures asymToAnum.Keys == set s | s in els
    ensures forall i :: 0 <= i < |els| ==> asymToAnum[els[i]] == i + 1
    ensures forall n :: n in anumToAsym <==> 1 <= n <= |els|
    ensures forall i :: 0 <= i < |els| ==> anumToAsym[i + 1] == els[i]
    ensures forall s :: s in asymToAnum ==> asymToAnum[s] in anumToAsym && anumToAsym[asymToAnum[s]] == s
    ensures forall n :: n in anumToAsym ==> anumToAsym[n] in asymToAnum && asymToAnum[anumToAsym[n]] == n
    ensures |asymToAnum| == |anumToAsym| == |els|
  {
    order, asymToAnum := NumberInOrder(els);
    anumToAsym := InvertItems(order, asymToAnum);
    InverseOfNumbering(els, asymToAnum, anumToAsym);
  }

  /** The loop-built map gives every listed symbol its reference number. */
  lemma NumberingAgrees(asymToAnum: map<string, int>)
    requires asymToAnum.Keys == set s | s in Elements
    requires forall i :: 0 <= i < |Elements| ==> asymToAnum[Elements[i]] == i + 1
    ensures forall s :: s in asymToAnum ==> asymToAnum[s] == AtomicNumber(s)
  {
    forall s | s in asymToAnum
      ensures asymToAnum[s] == AtomicNumber(s)
    {
      var i :| 0 <= i < |Elements| && Elements[i] == s;
      ElementsNumbered(i);
    }
  }

  /** One step of InverseOfNumbering: the inverse sends i + 1 back to the i-th element. */
  lemma InverseAt<T>(els: seq<T>, toNum: map<T, int>, toSym: map<int, T>, i: int)
    requires forall s :: s in els ==> s in toNum
    requires forall j :: 0 <= j < |els| ==> toNum[els[j]] == j + 1
    requires forall k :: k in els ==> toNum[k] in toSym && toSym[toNum[k]] in els && toNum[toSym[toNum[k]]] == toNum[k]
    requires 0 <= i < |els|
    ensures i + 1 in toSym && toSym[i + 1] == els[i]
  {
    var k := els[i];
    assert toNum[k] == i + 1;
    var back := toSym[toNum[k]];
    var j :| 0 <= j < |els| && els[j] == back;
    assert toNum[els[j]] == j + 1;
  }

  /**
   * Inverting (as InvertItems does) a map that numbers a duplicate-free list
   * 1, 2, ... in list order gives a two-sided inverse with one entry per
   * element.
   */
  lemma InverseOfNumbering<T>(els: seq<T>, toNum: map<T, int>, toSym: map<int, T>)
    requires Distinct(els)
    requires toNum.Keys == set s | s in els
    requires forall i :: 0 <= i < |els| ==> toNum[els[i]] == i + 1
    requires toSym.Keys == set k | k in els :: toNum[k]
    requires forall k :: k in els ==> toSym[toNum[k]] in els && toNum[toSym[toNum[k]]] == toNum[k]
    ensures forall n :: n in toSym <==> 1 <= n <= |els|
    ensures forall i :: 0 <= i < |els| ==> toSym[i + 1] == els[i]
    ensures forall s :: s in toNum ==> toNum[s] in toSym && toSym[toNum[s]] == s
    ensures forall n :: n in toSym ==> toSym[n] in toNum && toNum[toSym[n]] == n
    ensures |toNum| == |toSym| == |els|
  {
    forall i | 0 <= i < |els|
      ensures i + 1 in toSym && toSym[i + 1] == els[i]
    {
      InverseAt(els, toNum, toSym, i);
    }
    forall n | 1 <= n <= |els|
      ensures n in toSym
    {
      InverseAt(els, toNum, toSym, n - 1);
    }
    forall n | n in toSym
      ensures 1 <= n <= |els|
    {
      var k :| k in els && toNum[k] == n;
      var i :| 0 <= i < |els| && els[i] == k;
    }
    forall s | s in toNum
      ensures toNum[s] in toSym && toSym[toNum[s]] == s
    {
      var i :| 0 <= i < |els| && els[i] == s;
      InverseAt(els, toNum, toSym, i);
    }
    DistinctCardinality(els);
    InjectiveImageCardinality(els, toNum);
  }

  /** A key of the abundance and molecular-weight tables: an atomic number or an element symbol. */
  datatype Key = Anum(n: int) | Asym(sym: string)

  /** The keys 1..83 that a numeric table starts with. */
  function NumberKeys(): set<Key> {
    set n | 1 <= n <= ElementCount :: Anum(n)
  }

  /** The symbol keys the aliasing loop adds. */
  function SymbolKeys(): set<Key> {
    set s | s in Elements :: Asym(s)
  }

  /** The exact key set of a finished table: 1..83 and the 83 symbols. */
  function TableKeys(): set<Key> {
    NumberKeys() + SymbolKeys()
  }

  /** A dictionary display `{1 : v[0], 2 : v[1], ...}` keyed by atomic number. */
  function NumberedTable(values: seq<real>): (t: map<Key, real>)
    ensures t.Keys == set n | 1 <= n <= |values| :: Anum(n)
    ensures forall n :: 1 <= n <= |values| ==> t[Anum(n)] == values[n - 1]
  {
    map n | 1 <= n <= |values| :: Anum(n) := values[n - 1]
  }

  /** The symbol keys that aliasing the numeric keys `keys` through `anumToAsym` produces. */
  function Aliases(keys: set<Key>, anumToAsym: map<int, string>): set<Key> {
    set k | k in keys && k.Anum? && k.n in anumToAsym :: Asym(anumToAsym[k.n])
  }

  /** Distinct numeric keys of `keys` map to distinct symbols. */
  ghost predicate InjectiveOn(keys: set<Key>, anumToAsym: map<int, string>)
    requires forall k :: k in keys ==> k.Anum? && k.n in anumToAsym
  {
    forall k, k' :: k in keys && k' in keys && anumToAsym[k.n] == anumToAsym[k'.n] ==> k == k'
  }

  /**
   * The aliasing loop `for anum in list(x.keys()): x[anum_to_asym[anum]] = x[anum]`.
   * It walks a snapshot of the numeric keys, in an order the model leaves open
   * (the source's dictionaries are plain, unordered ones), so it only adds
   * symbol keys and never changes a numeric entry.
   */
  method DoubleUp(x0: map<Key, real>, anumToAsym: map<int, string>) returns (x: map<Key, real>)
    requires forall k :: k in x0 ==> k.Anum? && k.n in anumToAsym
    ensures x.Keys == x0.Keys + Aliases(x0.Keys, anumToAsym)
    ensures forall k :: k in x0 ==> x[k] == x0[k]
    ensures InjectiveOn(x0.Keys, anumToAsym) ==>
              forall k :: k in x0 ==> x[Asym(anumToAsym[k.n])] == x0[k]
  {
    x := x0;
    var snapshot := x0.Keys;
    while snapshot != {}
      invariant snapshot <= x0.Keys
      invariant x.Keys == x0.Keys + Aliases(x0.Keys - snapshot, anumToAsym)
      invariant forall k :: k in x0 ==> x[k] == x0[k]
      invariant InjectiveOn(x0.Keys, anumToAsym) ==>
                  forall k :: k in x0 && k !in snapshot ==> x[Asym(anumToAsym[k.n])] == x0[k]
      decreases snapshot
    {
      var anum :| anum in snapshot;
      x := x[Asym(anumToAsym[anum.n]) := x[anum]];
      assert Aliases(x0.Keys - (snapshot - {anum}), anumToAsym)
          == Aliases(x0.Keys - snapshot, anumToAsym) + {Asym(anumToAsym[anum.n])};
      snapshot := snapshot - {anum};
    }
  }

  /** Solar abundances (Asplund et al. 2009, meteoritic where no solar value exists), element n at index n - 1. */
  const SolarAbundances: seq<real> := [
    12.00, 10.93, 1.05, 1.38, 2.70, 8.43, 7.83, 8.69, 4.56, 7.93,
    6.24, 7.60, 6.45, 7.51, 5.41, 5.41, 5.50, 6.40, 5.03, 6.34,
    3.15, 4.95, 3.93, 5.64, 5.43, 7.50, 4.99, 6.22, 4.19, 4.56,
    3.04, 3.65, 2.30, 3.34, 2.54, 3.25, 2.52, 2.87, 2.21, 2.58,
    1.46, 1.88, 0.00, 1.75, 0.91, 1.57, 0.94, 1.71, 0.80, 2.04,
    1.01, 2.18, 1.55, 2.24, 1.08, 2.18, 1.10, 1.58, 0.72, 1.42,
    0.00, 0.96, 0.52, 1.07, 0.30, 1.10, 0.48, 0.92, 0.10, 0.84,
    0.10, 0.85, -0.12, 0.85, 0.26, 1.40, 1.38, 1.62, 0.92, 1.17,
    0.90, 1.75, 0.65]

  /** Standard atomic weights, element n at index n - 1. */
  const MolecularWeights: seq<real> := [
    1.0079, 4.0026, 6.941, 9.0122, 10.811, 12.0107, 14.0067, 15.9994,
    18.9984, 20.1797, 22.9897, 24.305, 26.9815, 28.0855, 30.9738, 32.065,
    35.453, 39.948, 39.098, 40.078, 44.955912, 47.867, 50.9415, 51.9961,
    54.938045, 55.845, 58.933195, 58.6934, 63.546, 65.38, 69.723, 72.64,
    74.9216, 78.96, 79.904, 83.798, 85.4678, 87.62, 88.90585, 91.224,
    92.90638, 95.96, 97.9072, 101.07, 102.90550, 106.42, 107.8682, 112.411,
    114.818, 118.710, 121.760, 127.60, 126.90447, 131.293, 132.9054519, 137.327,
    138.90547, 140.116, 140.90765, 144.242, 145.0, 150.36, 151.964, 157.25,
    158.92535, 162.500, 164.93032, 167.259, 168.93421, 173.054, 174.9668, 178.49,
    180.94788, 183.84, 186.207, 190.23, 192.217, 195.084, 196.966569, 200.59,
    204.3833, 207.2, 208.98040]

  /**
   * Builds a table from its numeric display `values` and doubles it up with
   * the symbols `els` that `anumToAsym` names, as both
   * `_set_abundance_dictionary` and `_set_molecular_weight_dictionary` do.
   */
  method AliasedTable(els: seq<string>, anumToAsym: map<int, string>, values: seq<real>) returns (x: map<Key, real>)
    requires Distinct(els) && Names(els, anumToAsym) && |values| == |els|
    ensures x.Keys == (set n | 1 <= n <= |els| :: Anum(n)) + (set s | s in els :: Asym(s))
    ensures forall n :: 1 <= n <= |els| ==> x[Anum(n)] == values[n - 1]
    ensures forall n :: 1 <= n <= |els| ==> x[Asym(els[n - 1])] == x[Anum(n)]
  {
    var x0 := NumberedTable(values);
    AliasingInjective(els, x0.Keys, anumToAsym);
    x := DoubleUp(x0, anumToAsym);
    AliasesAreSymbols(els, x0.Keys, anumToAsym);
    AliasedEntries(els, anumToAsym, values, x0, x);
  }

  /** The entries after aliasing: each number keeps its value, and its symbol gets the same one. */
  lemma AliasedEntries(els: seq<string>, anumToAsym: map<int, string>, values: seq<real>, x0: map<Key, real>, x: map<Key, real>)
    requires Names(els, anumToAsym) && |values| == |els|
    requires x0.Keys == set n | 1 <= n <= |values| :: Anum(n)
    requires forall n :: 1 <= n <= |values| ==> x0[Anum(n)] == values[n - 1]
    requires forall k :: k in x0 ==> k in x && x[k] == x0[k]
    requires forall k :: k in x0 ==> k.n in anumToAsym && Asym(anumToAsym[k.n]) in x && x[Asym(anumToAsym[k.n])] == x0[k]
    ensures forall n :: 1 <= n <= |els| ==> Anum(n) in x && x[Anum(n)] == values[n - 1]
    ensures forall i :: 0 <= i < |els| ==> Asym(els[i]) in x && x[Asym(els[i])] == values[i]
  {
    forall i | 0 <= i < |els|
      ensures Asym(els[i]) in x && x[Asym(els[i])] == values[i]
    {
      assert Anum(i + 1) in x0 && anumToAsym[Anum(i + 1).n] == els[i];
    }
  }

  /** `anumToAsym` names element n as the n-th symbol of `els`. */
  ghost predicate Names(els: seq<string>, anumToAsym: map<int, string>) {
    forall n :: 1 <= n <= |els| ==> n in anumToAsym && anumToAsym[n] == els[n - 1]
  }

  /** With distinct symbols, distinct atomic numbers alias to distinct symbols. */
  lemma AliasingInjective(els: seq<string>, keys: set<Key>, anumToAsym: map<int, string>)
    requires Distinct(els) && Names(els, anumToAsym)
    requires keys == set n | 1 <= n <= |els| :: Anum(n)
    ensures forall k :: k in keys ==> k.Anum? && k.n in anumToAsym
    ensures InjectiveOn(keys, anumToAsym)
  {
    forall k, k' | k in keys && k' in keys && anumToAsym[k.n] == anumToAsym[k'.n]
      ensures k == k'
    {
      assert els[k.n - 1] == els[k'.n - 1];
    }
  }

  /** Aliasing every number of 1..|els| adds exactly the symbols of `els`. */
  lemma AliasesAreSymbols(els: seq<string>, keys: set<Key>, anumToAsym: map<int, string>)
    requires Names(els, anumToAsym)
    requires keys == set n | 1 <= n <= |els| :: Anum(n)
    ensures Aliases(keys, anumToAsym) == set s | s in els :: Asym(s)
  {
    forall k | k in set s | s in els :: Asym(s)
      ensures k in Aliases(keys, anumToAsym)
    {
      var i :| 0 <= i < |els| && els[i] == k.sym;
      assert Anum(i + 1) in keys;
    }
  }

  /** `_set_abundance_dictionary`: solar abundances keyed by atomic number and by symbol. */
  method SetAbundanceDictionary() returns (x: map<Key, real>)
    ensures x.Keys == TableKeys()
    ensures forall n :: 1 <= n <= ElementCount ==> x[Anum(n)] == SolarAbundances[n - 1]
    ensures forall n :: 1 <= n <= ElementCount ==> x[Asym(Elements[n - 1])] == x[Anum(n)]
  {
    var _, _, anumToAsym := MakeConversionDictionaries();
    ElementsDistinct();
    x := AliasedTable(Elements, anumToAsym, SolarAbundances);
  }

  /** `_set_molecular_weight_dictionary`: atomic weights keyed by atomic number and by symbol. */
  method SetMolecularWeightDictionary() returns (x: map<Key, real>)
    ensures x.Keys == TableKeys()
    ensures forall n :: 1 <= n <= ElementCount ==> x[Anum(n)] == MolecularWeights[n - 1]
    ensures forall n :: 1 <= n <= ElementCount ==> x[Asym(Elements[n - 1])] == x[Anum(n)]
  {
    var _, _, anumToAsym := MakeConversionDictionaries();
    ElementsDistinct();
    x := AliasedTable(Elements, anumToAsym, MolecularWeights);
  }

  /** A key the finished tables hold: an atomic number in 1..83 or one of the listed symbols. */
  predicate ValidKey(k: Key) {
    match k
    case Anum(n) => 1 <= n <= ElementCount
    case Asym(s) => s in Elements
  }

  lemma TableKeysExactly(k: Key)
    ensures k in TableKeys() <==> ValidKey(k)
  {
  }

  /** `table[key]`: the entry, or None where Python raises KeyError. */
  function Lookup(table: map<Key, real>, key: Key): (r: Option<real>)
    ensures r.Some? <==> key in table
    ensures r.Some? ==> r.value == table[key]
  {
    if key in table then Some(table[key]) else None
  }

  /**
   * For a finished table (the postcondition of SetAbundanceDictionary and
   * SetMolecularWeightDictionary), an atomic number and its symbol look up the
   * same value, and every key outside 1..83 and the symbol list fails.
   */
  lemma LookupByNumberOrSymbol(table: map<Key, real>, k: Key)
    requires table.Keys == TableKeys()
    requires forall n :: 1 <= n <= ElementCount ==> table[Asym(Elements[n - 1])] == table[Anum(n)]
    ensures Lookup(table, k).Some? <==> ValidKey(k)
    ensures k.Anum? && 1 <= k.n <= ElementCount ==>
              Lookup(table, k) == Lookup(table, Asym(Elements[k.n - 1]))
    ensures k.Asym? && k.sym in Elements ==>
              Lookup(table, k) == Lookup(table, Anum(AtomicNumber(k.sym)))
  {
    TableKeysExactly(k);
    if k.Asym? && k.sym in Elements {
      var i :| 0 <= i < |Elements| && Elements[i] == k.sym;
      ElementsNumbered(i);
    }
  }

  // Scalar constants of the `constants` class that the radiation routines use.

  /** `eV_erg`: eV per erg. */
  const EvPerErg: real := 6.24150934326e11
  /** `k_boltz`: Boltzmann's constant, erg/K. */
  const KBoltz: real := 1.380658e-16
  /** `c`: the speed of light, cm/s. */
  const SpeedOfLight: real := 2.99792458e10
  /** `h`: Planck's constant, erg s. */
  const Planck: real := 6.6260755e-27
  /** `E_HI`: the hydrogen ionisation energy, eV. */
  const EHI: real := 13.6
  /** `E_HeI`: the first helium ionisation energy, eV. */
  const EHeI: real := 24.587
}
