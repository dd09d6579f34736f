# onezone: element tables, blackbody series and Type Ia yields in Dafny

This project models the discrete logic of the `onezone` one-zone chemical
evolution package. The model has three parts, one per source file.

- **Element tables** (`constants.dfy`, module `Constants`).
  - The 83-symbol element list is numbered 1..83 into an OrderedDict. The
    dictionary is then inverted, giving `asym_to_anum` and `anum_to_asym`.
  - The solar-abundance and molecular-weight tables start keyed by atomic
    number. They are then doubled up so that every symbol keys the same
    entry as its number.
  - The OrderedDict is a class with `order` and `items` fields. The tables
    are maps over a `Key` datatype (`Anum(n)` or `Asym(s)`). Python's
    KeyError is `None` of an `Option`.
- **Blackbody series** (`radiation.dfy`, module `Radiation`).
  - Every integral in `radiation.py` is a truncated series loop with the rule
    "continue while (difference > tolerance and i < max_iter) or i < min_iter".
  - `TruncatedSeries` is that loop. It is proved equal to the specification
    function `Series`, which sums the terms up to the exit index `ExitIndex`.
  - The wrappers compose these sums into band fluxes, photon fluxes and the
    mean photon energy.
  - Arithmetic is exact `real`. The exponential is a parameter `exp`; the
    positivity results assume it is positive, and the underflow lemmas take
    it to be 0.0 everywhere.
  - A division by a zero (Python float) temperature is `ZeroDivisionError`,
    as Python raises. A zero photon sum in the mean energy is `Undefined`:
    the sums are numpy float64 values, whose division by zero gives NaN or
    infinity instead of raising.
- **Type Ia yields and white dwarf masses** (`physics.dfy`, modules
  `ThielemannYields` and `Physics`).
  - The measured yield dictionary is zero-filled with the unmeasured elements.
  - The table answers a whole-table, single-symbol or list request, or raises
    KeyError on a missing symbol.
  - The white dwarf initial-to-final mass relation is a two-branch linear
    function.

`wrappers.dfy` holds the `Option` datatype.

## Model

| member | source | states |
|---|---|---|
| Constants.ElementsDistinct | onezone/constants.py:11-22 | the element list has 83 entries and no symbol occurs twice |
| Constants.ElementsNumbered | onezone/constants.py:11-22 | the symbol at list position i is the symbol of element i + 1 (checked against an independent symbol-to-number table) |
| Constants.ListedSymbolsAreNumbered | onezone/constants.py:11-22 | every listed symbol has an atomic number in 1..83 |
| Constants.OrderedDict.constructor | onezone/constants.py:9 | `OrderedDict()` starts with no keys and an empty insertion order |
| Constants.OrderedDict.SetItem | onezone/constants.py:9-25 | `d[k] = v` updates the items; a new key goes to the end of the insertion order, an existing key keeps its place; the keys stay exactly the ordered keys, with no duplicates |
| Constants.NumberInOrder | onezone/constants.py:24-25 | the fill loop leaves the OrderedDict's order equal to the element list, its keys exactly the listed symbols, and maps `elements[i-1]` to i |
| Constants.InvertItems | onezone/constants.py:27 | the comprehension `{v: k for k, v in x.items()}` has exactly the values as keys, and sends each value back to a key that carries it |
| Constants.InverseOfNumbering | onezone/constants.py:24-27 | inverting the numbering of a duplicate-free list gives a two-sided inverse defined exactly on 1..len, with as many entries as the list |
| Constants.NumberAndInvert | onezone/constants.py:24-27 | numbering then inverting any duplicate-free list gives the numbering in list order and its two-sided inverse on 1..len |
| Constants.MakeConversionDictionaries | onezone/constants.py:7-29 | `asym_to_anum` keeps the list order, maps `elements[i-1]` to i and agrees with the reference numbering; `anum_to_asym` is defined exactly on 1..83, is a two-sided inverse, and both maps have 83 entries |
| Constants.NumberingAgrees | onezone/constants.py:24-25 | the loop-built numbering agrees with the reference atomic numbers on every key |
| Constants.NumberedTable | onezone/constants.py:40-67 | the numeric dictionary display has exactly the keys 1..n, and key n holds the n-th value |
| Constants.DoubleUp | onezone/constants.py:69-70 | aliasing over a snapshot of the keys adds exactly the aliased symbol keys and changes no numeric entry; when distinct numbers name distinct symbols, each symbol gets its number's value |
| Constants.AliasingInjective | onezone/constants.py:69-70 | with a duplicate-free symbol list, distinct atomic numbers alias to distinct symbols |
| Constants.AliasesAreSymbols | onezone/constants.py:69-70 | aliasing the numbers 1..n adds exactly the n listed symbols |
| Constants.AliasedEntries | onezone/constants.py:69-70 | after aliasing, each number keeps its value and its symbol holds the same value |
| Constants.AliasedTable | onezone/constants.py:40-70 | a numbered table doubled up has exactly the keys 1..n and the n symbols; the numeric entries are the displayed values, and each symbol equals its number's entry |
| Constants.SetAbundanceDictionary | onezone/constants.py:34-72 | the abundance table has exactly the keys 1..83 and the 83 symbols; entry n is the n-th solar abundance, and `x[anum_to_asym[n]] == x[n]` |
| Constants.SetMolecularWeightDictionary | onezone/constants.py:75-102 | the molecular-weight table has the same key set and aliasing, with the atomic weights as entries |
| Constants.Lookup | onezone/constants.py:69-70 | `table[key]` gives the entry exactly when the key is present, and otherwise the KeyError (`None`) |
| Constants.TableKeysExactly | onezone/constants.py:40-70 | a key is in a finished table exactly when it is a number in 1..83 or a listed symbol |
| Constants.LookupByNumberOrSymbol | onezone/constants.py:69-72 | looking a key up in a finished table succeeds exactly on valid keys (any other key is a KeyError), and a number and its symbol look up the same value |
| Radiation.Continues | onezone/radiation.py:121 | the loop condition of every series loop (lines 121, 144, 168 and 179): it always holds while i < min_iter, so the first three terms are forced, and never once i reaches max_iter |
| Radiation.ExitFrom | onezone/radiation.py:121 | from counter i, the loop stops at the first n >= i (and at most 513) where the loop condition fails; the condition holds at every counter before n |
| Radiation.TruncatedSeries | onezone/radiation.py:112-127 | the shared series loop returns the sum of terms 1..n-1, where n is the exit counter (the loop invariant keeps `difference` equal to the term just added); the result is the same for every starting `difference` |
| Radiation.ExitBounds | onezone/radiation.py:112-121 | the loop exits with 4 <= i <= 513, so terms 1, 2 and 3 are always added and at most 512 are; an exit before 513 has a last difference <= tolerance, and every difference the loop tested before the exit (counters 4..n-1) was above it; the differences at counters 2 and 3 are never tested |
| Radiation.Polynomial | onezone/radiation.py:123 | the polynomial factor of the energy-flux term (lines 123 and 170-171) and of the photon-number term (lines 146 and 181); both are non-negative for x >= 0, and the photon-number factor, ((ix + 1)^2 + 1) / i^3, is positive for every x |
| Radiation.TermNonNegative | onezone/radiation.py:123 | for x >= 0 and a positive exponential, every term is non-negative |
| Radiation.PartialSumMonotone | onezone/radiation.py:121-125 | for x >= 0 and a positive exponential, the running sum never decreases |
| Radiation.SeriesNonNegative | onezone/radiation.py:121-127 | for x >= 0 and a positive exponential, each running sum lies between 0 and the returned sum |
| Radiation.PhotonPartialSumPositive | onezone/radiation.py:144-148 | for a positive exponential, every non-empty running photon sum is positive |
| Radiation.PhotonSeriesPositive | onezone/radiation.py:144-150 | the photon series is positive for every x, for a positive exponential |
| Radiation.OneSidedBlackBodyFlux | onezone/radiation.py:104-127 | `one_sided_black_body_flux` (starting difference 1.0) is the energy-flux series, non-negative for x >= 0 and a positive exponential |
| Radiation.PhotonRadiance | onezone/radiation.py:130-150 | `photon_radiance` (starting difference 1.0E10) is the photon-number series, positive whenever the exponential is |
| Radiation.BlackBodyFlux | onezone/radiation.py:93-102 | `black_body_flux(x1, x2)` is the band flux F(x1) - F(x2) from two runs of the one-sided loop; equal bounds give 0 |
| Radiation.BandFluxAntisymmetric | onezone/radiation.py:102 | swapping the bounds negates the band flux, and equal bounds give zero |
| Radiation.ComputeBlackbodyQ1 | onezone/radiation.py:8-21 | the result is the photon flux above E_HeI: the photon series at x = (E/eV_erg)/(kT), times 2k^3T^3/(h^3c^2); ZeroDivisionError at T = 0 |
| Radiation.ComputeBlackbodyQ0 | onezone/radiation.py:23-35 | the same computation with the threshold E_HI |
| Radiation.PhotonFluxPositive | onezone/radiation.py:8-35 | at a positive temperature and for a positive exponential, the photon flux above any threshold is a positive value |
| Radiation.SameDimensionless | onezone/radiation.py:86-87 | `E / (kT) / eV_erg` equals `(E / eV_erg) / (kT)`, so BB_flux and the photon routines use the same x |
| Radiation.BBFlux | onezone/radiation.py:80-91 | the result is 2k^4T^4/(h^3c^2) times the band flux between x1 and x2; ZeroDivisionError at T = 0 |
| Radiation.FuvFluxBlackbody | onezone/radiation.py:38-54 | the energy flux between 6 eV and E_HI |
| Radiation.LWFluxBlackbody | onezone/radiation.py:56-72 | the energy flux between 11.2 eV and E_HI |
| Radiation.VanishingPartialSum | onezone/radiation.py:168-183 | with an exponential that is 0.0 everywhere (full underflow), every running sum is 0.0 |
| Radiation.MeanEnergyUndefinedOnUnderflow | onezone/radiation.py:179-185 | when every exponential underflows to 0.0, the mean energy is `Undefined` (NaN) even at T != 0 |
| Radiation.AverageEnergy | onezone/radiation.py:152-185 | the two loops compute the energy-flux and photon-number series at x = E/(kT), and the result is kT·F(x)/P(x); ZeroDivisionError at T = 0; `Undefined` (NaN) on a zero photon sum, which never happens at T != 0 when the exponential is positive |
| ThielemannYields.MeasuredKeysListed | physics.py:46-74 | the key set of the measured table equals {`m_tot`, `m_metal`, C, ..., Ge} |
| Physics.MeasuredNumbers | physics.py:46-74 | every measured key is a total (no atomic number) or an element numbered 6..32 |
| Physics.ZeroNumbers | physics.py:76-80 | the zero-filled symbols are the elements 1..5 and 33..83, in order |
| Physics.ZeroElementsUnmeasured | physics.py:46-80 | no zero-filled symbol is a measured key |
| Physics.ZeroFill | physics.py:82-83 | the loop adds exactly the zero-filled symbols, sets each to 0.0, and leaves every other entry unchanged |
| Physics.Filled | physics.py:82-83 | the zero-filled dictionary as a value: the keys of both, 0.0 on the zero-filled symbols, the measured value elsewhere |
| Physics.YieldTable | physics.py:46-83 | the finished table has the measured and zero-filled keys; every zero-filled symbol holds 0.0 and every measured entry is unchanged |
| Physics.TotalIsMetal | physics.py:46-47 | `m_tot` and `m_metal` hold the same value |
| Physics.LookupOne | physics.py:89-90 | a single-symbol request returns that symbol's yield exactly when it is in the table, and otherwise is a KeyError naming it |
| Physics.LookupAll | physics.py:91-92 | a list request returns a vector of the same length whose k-th entry is the k-th symbol's yield exactly when every symbol is in the table; otherwise it is a KeyError naming the first missing symbol |
| Physics.SNIaYields | physics.py:35-92 | with `return_dict` the whole table is returned and the request is ignored; otherwise a single symbol or a list is looked up in the zero-filled table |
| Physics.YieldKnownIff | physics.py:46-90 | a single-symbol request succeeds exactly for the measured keys and the zero-filled symbols |
| Physics.WhiteDwarfMass | physics.py:119-132 | the lower branch (result below 0.867) is taken exactly when M < 4; a non-negative mass gives at least 0.331 |
| Physics.WhiteDwarfMassContinuous | physics.py:126-129 | in exact arithmetic both branches give 0.867 at M = 4 |
| Physics.WhiteDwarfMassIncreasing | physics.py:126-129 | a heavier progenitor gives a heavier white dwarf |
| Physics.WhiteDwarfLighterThanProgenitor | physics.py:126-129 | from M = 0.5 up, the white dwarf is lighter than its progenitor |

## Left out

- Floating point: every quantity is an exact `real`. The model makes no claim about rounding, about convergence, or about accuracy against the true integrals.
- `np.exp` is a parameter of every series routine. Its only assumed property is positivity.
- The scalar constants of the `constants` class are present only where the radiation routines use them (eV_erg, k_boltz, c, h, E_HI, E_HeI), as exact reals. The other constants and the `hubble_time` property are plain data, with no behaviour to model.
- `config.py` is not part of this model. It only holds configuration records.
- `s99_wind_velocity`, `s99_wind_mdot` and `SNIa_probability` are left out. They are log and power formulas over floats, with no discrete logic.
- Constants.DoubleUp: the key order of the aliasing loop is left open. A plain Python 2 dictionary has an unspecified iteration order, so the loop picks any remaining key of its snapshot. The order cannot change the result, which is proved.
- Constants.NumberInOrder: the loop counter runs from 0 and sets `x[els[i]] = i + 1`, where the source runs i from 1 with `x[elements[i-1]] = i`.
- Radiation.AverageEnergy: in floating point `np.exp` underflows to 0.0 for arguments below about -745. At large x = E/(kT) every term is then 0.0, both sums are 0.0, and the code returns NaN (with a RuntimeWarning) at T != 0. The model returns `Undefined` on a zero photon sum (Radiation.MeanEnergyUndefinedOnUnderflow), but its claim that the result is a value at T != 0 assumes a positive exponential, which excludes underflow. The same underflow voids the positivity of Radiation.PhotonRadiance, Radiation.PhotonPartialSumPositive, Radiation.PhotonSeriesPositive and Radiation.PhotonFluxPositive in floating point. `Undefined` does not tell NaN from infinity.
- For a Python float T = 0, the division by k T raises ZeroDivisionError in the code, and the model returns a `ZeroDivisionError` outcome. A numpy float64 T = 0 gives infinity or NaN instead of raising; the model does not distinguish the two kinds of temperature and covers only the Python float.
- In `average_energy`, `i**3` and `i*i*i` are the same exact real, so both of its loops are the shared series loop.
- The `isinstance(elements, basestring)` test is modelled by the `Request` datatype: a single symbol or a list of symbols.
- `np.asarray` is modelled as a plain sequence of reals.
- Numpy `int64` keys versus Python `int`, Python 2 `print`, and the module-level singleton instances do not matter for the model.
- The measured yield values are kept as the sums the source writes. Only the equality of `m_tot` and `m_metal` is stated about them.
