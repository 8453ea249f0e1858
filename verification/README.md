# bifrost dtype-name codec in Dafny

This project models the dtype-name codec of bifrost (`python/bifrost/dtype.py`).
bifrost names the element type of an array in three ways:

- a short type string: a family name followed by the width in bits of one
  component, such as `i8`, `u16`, `f32`, `ci8` or `cf32`;
- a numpy dtype;
- a native `BF_DTYPE_*` enumeration code.

The codec converts between them:

- `split_name_nbit` cuts a string at its first digit;
- `name_nbit2numpy` looks the (name, width) pair up in fixed tables;
- `string2numpy` composes the two;
- `numpy2string`, `numpy2bifrost` and `bifrost2string` are the reverse and
  cross mappings.

The tables are not symmetric, so each direction is partial in its own way.
The model states exactly where each one fails and which round trips hold.

Files:

- `python_builtins.dfy` (module `PyBuiltins`) holds the Python behaviour the
  codec relies on:
  - raised exceptions, as a `Result` whose `Raise` case names the exception;
  - Python's `None`, as `Option.None`;
  - `str.isdigit`;
  - the built-in `int()` applied to a string: the ASCII white space
    characters space, tab, line feed, vertical tab, form feed and carriage
    return are stripped from both ends, an optional sign comes first, and underscores may separate
    two digits;
  - the decimal spelling of a number.
- `dtype.dfy` (module `Dtype`) holds the data model and the six operations.
  - Numpy dtypes and native codes are abstract enumerations.
  - `OtherDtype` stands for every dtype the codec does not name.
  - `BfOther(code)` stands for every enumeration value other than the
    nineteen named codes.
  - A `NumpyDtype` stands both for a numpy scalar type such as `np.int8`
    and for the equal `np.dtype`. `name_nbit2numpy` returns the scalar
    types, and numpy's `==` does not tell the two apart in the `if`/`elif`
    chains of `numpy2string` and `numpy2bifrost`.
  - `BF_FLOAT128_ENABLED` is the boolean parameter `float128Enabled`.
  - `Descriptor` and `BfDescriptor` are the reference definitions that the
    contracts are stated against. Each gives the family and the component
    width of a dtype or code, as the module docstring describes them.
- `dtype_properties.dfy` (module `DtypeProperties`) holds the round trips and
  the partiality results.

Behaviour worth knowing:

- The "ci" branch of `name_nbit2numpy` has no `else`. Any width other than 8,
  16 or 32 returns `None` and raises nothing. The docstring advertises `ci4`,
  which therefore returns `None`.
- `numpy2string` has no branch for the four structured dtypes the module
  defines (`ci8`, `ci16`, `ci32`, `cf16`), so they raise `TypeError`.
- `numpy2bifrost` has no branch for the 64-bit integers, but
  `bifrost2string` maps `BF_DTYPE_I64` and `BF_DTYPE_U64`.
- `string2numpy` ignores `BF_FLOAT128_ENABLED`: `f128` and `cf128` always give
  a dtype.
- `int()` is lenient, so several strings name one dtype: `i08`, `i8 ` and
  `i0_8` all give int8. Only the canonical spelling comes back from
  `numpy2string`.

## Model

| member | source | states |
|---|---|---|
| PyBuiltins.ParseInt | python/bifrost/dtype.py:58 | every failure of `int()` is a `ValueError` |
| PyBuiltins.ParseIntNeedsDigit | python/bifrost/dtype.py:58 | `int()` raises `ValueError` on any text without a digit, the empty string included |
| PyBuiltins.ParseIntNonNegative | python/bifrost/dtype.py:58 | a number `int()` reads from text that starts with a digit is not negative |
| PyBuiltins.ParseIntOfDecimal | python/bifrost/dtype.py:58 | `int()` reads the decimal spelling of every natural number back as that number |
| PyBuiltins.ParseIntLeadingZero | python/bifrost/dtype.py:58 | a zero in front of digits does not change what `int()` reads, so a width has spellings other than the canonical one |
| PyBuiltins.ParseIntUnderscore | python/bifrost/dtype.py:58 | `int()` accepts one underscore between digits and ignores it in the value |
| PyBuiltins.ParseIntTrailingSpace | python/bifrost/dtype.py:58 | `int()` ignores any white space after the digits |
| PyBuiltins.ParseIntTrailingUnderscore | python/bifrost/dtype.py:58 | `int()` raises `ValueError` when the digits end in an underscore |
| PyBuiltins.ParseIntEndsInNonDigit | python/bifrost/dtype.py:58 | `int()` raises `ValueError` on digits followed by a last character that is neither a digit nor white space, such as `\x1c` |
| PyBuiltins.ParseIntDoubleUnderscore | python/bifrost/dtype.py:58 | `int()` raises `ValueError` when two underscores stand between digits |
| Dtype.ScanToDigit | python/bifrost/dtype.py:54-56 | the enumerate/break loop stops at the first digit, or at the last index when there is no digit, having passed only non-digits |
| Dtype.SplitNameNbit | python/bifrost/dtype.py:52-59 | the empty string raises `UnboundLocalError`; a string without a digit raises `ValueError`; on success the name is the digit-free prefix before the first digit and the width is the non-negative number `int()` reads from the rest |
| Dtype.DigitAtScanEnd | python/bifrost/dtype.py:54-58 | when `int()` accepts the text where the loop stopped, the loop stopped at a digit and the width is not negative |
| Dtype.NameNbit2Numpy | python/bifrost/dtype.py:95-128 | every dtype returned has exactly the given family name and width; `None` comes only from the "ci" family; every raise is a `TypeError` and never from "ci" |
| Dtype.String2Numpy | python/bifrost/dtype.py:130-131 | every failure of splitting is raised unchanged, so the empty string raises `UnboundLocalError` and digit-free strings raise `ValueError`; a returned dtype is spelled by the string: family name, then a digit, then text `int()` reads as the width |
| Dtype.Numpy2String | python/bifrost/dtype.py:133-149 | succeeds exactly for the named dtypes that numpy itself provides; the module's structured dtypes and unnamed dtypes raise `TypeError` |
| Dtype.Numpy2StringCanonical | python/bifrost/dtype.py:133-149 | every string `numpy2string` returns is the family name followed by the decimal width of the dtype |
| Dtype.Numpy2Bifrost | python/bifrost/dtype.py:73-93 | succeeds exactly for named dtypes that are not 64-bit integers and, unless float128 is enabled, not 128-bit; the code has the dtype's family and width; failures are `ValueError` |
| Dtype.TypeDictKeys | python/bifrost/dtype.py:153-174 | the lookup table holds exactly the described codes, minus `F128` and `CF128` when float128 is disabled |
| Dtype.TypeDictEntry | python/bifrost/dtype.py:153-174 | every table entry is the canonical string of its code's family and width |
| Dtype.Bifrost2String | python/bifrost/dtype.py:151-180 | succeeds exactly for the codes in the table, returning their canonical string; any other code raises `ValueError` |
| DtypeProperties.SplitOfNameAndNumber | python/bifrost/dtype.py:52-59 | a digit-free name followed by text that starts with a digit and that `int()` accepts splits back into the name and that number |
| DtypeProperties.SplitOfSpelling | python/bifrost/dtype.py:52-59 | `split_name_nbit(name + str(n)) == (name, n)` for every digit-free name, e.g. "ci4" gives ("ci", 4) |
| DtypeProperties.SplitOfBadNumber | python/bifrost/dtype.py:52-59 | a digit-free name followed by text that starts with a digit but that `int()` rejects makes splitting raise `ValueError`, and `string2numpy` with it |
| DtypeProperties.TrailingJunkRaises | python/bifrost/dtype.py:130-131 | a name, a width and a trailing character that is neither a digit nor white space, as in "i8x", make `string2numpy` raise `ValueError` |
| DtypeProperties.NameNbit2NumpyComplete | python/bifrost/dtype.py:95-128 | every named dtype is returned for its own family name and width |
| DtypeProperties.NameNbit2NumpyRaisesIff | python/bifrost/dtype.py:95-128 | `TypeError` is raised exactly when the name is not "ci" and no dtype has that name and width |
| DtypeProperties.String2NumpyOfSplit | python/bifrost/dtype.py:130-131 | `string2numpy` gives whatever the table lookup gives for the pair that splitting produces |
| DtypeProperties.CiFamilyReturnsNone | python/bifrost/dtype.py:114-117 | the "ci" family never raises, and returns `None` exactly when no dtype has that name and width, that is for every width other than 8, 16 and 32 |
| DtypeProperties.String2NumpyIff | python/bifrost/dtype.py:130-131 | `string2numpy(s)` is dtype `d` exactly when `s` spells `d` |
| DtypeProperties.String2NumpyOfSpell | python/bifrost/dtype.py:130-131 | the canonical string of every named dtype converts back to that dtype |
| DtypeProperties.SpellInjective | python/bifrost/dtype.py:95-131 | distinct dtypes have distinct canonical strings |
| DtypeProperties.Numpy2StringRoundTrip | python/bifrost/dtype.py:130-149 | `string2numpy(numpy2string(d)) == d` whenever `numpy2string` succeeds |
| DtypeProperties.String2NumpyRoundTrip | python/bifrost/dtype.py:130-149 | `numpy2string(string2numpy(s)) == s` exactly when `s` is the canonical string of a dtype numpy provides; the structured dtypes raise `TypeError` instead |
| DtypeProperties.CustomDtypesOneWay | python/bifrost/dtype.py:62-65 | `ci8`, `ci16`, `ci32` and `cf16` convert from their strings, but `numpy2string` raises `TypeError` for them |
| DtypeProperties.LeadingZeroNotRestored | python/bifrost/dtype.py:130-149 | for every named dtype, its family name, a zero and its width ("i08") converts to that dtype, but `numpy2string` never returns that string |
| DtypeProperties.CiSpellingIsNone | python/bifrost/dtype.py:39 | "ci" followed by any width other than 8, 16 or 32, such as the documented "ci4", returns `None` |
| DtypeProperties.EnumRoundTrip | python/bifrost/dtype.py:73-180 | for every dtype `numpy2bifrost` accepts, `string2numpy(bifrost2string(numpy2bifrost(d))) == d` under the same float128 flag, and the string in between is canonical |
| DtypeProperties.Numpy2BifrostInjective | python/bifrost/dtype.py:73-93 | distinct dtypes get distinct native codes |
| DtypeProperties.DtypeOfCode | python/bifrost/dtype.py:73-93 | every described native code has a numpy dtype with the same family and width |
| DtypeProperties.BfDescriptorInjective | python/bifrost/dtype.py:151-171 | distinct native codes have distinct family and width |
| DtypeProperties.EnumToStringRoundTrip | python/bifrost/dtype.py:73-180 | every string `bifrost2string` returns names a dtype, and `numpy2bifrost` maps that dtype back to the same code exactly when the code is not a 64-bit integer |
| DtypeProperties.WideIntsOneWay | python/bifrost/dtype.py:73-93 | the 64-bit integer codes have strings naming a dtype, `numpy2bifrost` raises `ValueError` for that dtype, and no dtype maps to those codes |
| DtypeProperties.Float128GatesNumpy2Bifrost | python/bifrost/dtype.py:83-92 | the float128 flag changes `numpy2bifrost` only on float128 and complex256; they raise `ValueError` when it is off |
| DtypeProperties.Float128GatesBifrost2String | python/bifrost/dtype.py:172-178 | the float128 flag changes `bifrost2string` only on `F128` and `CF128`; they raise `ValueError` when it is off |

## Left out

- `to_complex64` and `from_complex64` are floating-point array views and casts, not name conversions.
- The telemetry call at import time is a side effect with no bearing on the conversions.
- The integer values of the `BF_DTYPE_*` codes are generated by the native build and are not part of this model. The codes are abstract and pairwise distinct.
- Numpy's platform dependence is not modelled. On some platforms `np.float128` and `np.complex256` do not exist, or long double equals double. The model assumes all the named dtypes exist and are distinct.
- Calls with an argument that is neither a numpy dtype nor a numpy scalar type (a Python string, say) are not modelled. `numpy2string` and `numpy2bifrost` take an abstract dtype.
- Exception messages are not modelled, only the exception class.
- PyBuiltins.ParseInt: does not model `int()`'s limit on the number of digits it converts, nor non-ASCII decimal digits and white space. `PyBuiltins.IsDigit` is likewise ASCII-only, whereas `str.isdigit` also accepts other Unicode digits.
- The streaming ring buffer, packet capture and packet transmit code, the UDP tests, the monitoring tool and the FFT wrapper are not part of this model.
