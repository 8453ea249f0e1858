/**
  The element-type names of bifrost arrays and the conversions between
  their three representations: short type strings such as "ci8" or "cf32",
  numpy dtypes, and the library's `BF_DTYPE_*` enumeration codes.

  A short type string is a family name followed by the bit width of one
  component: "i"/"u" for signed/unsigned integers, "f" for floating point,
  "ci"/"cf" for complex integers and complex floating point, whose width
  counts the real part only ("cf32" is a pair of 32-bit floats).
 */
module Dtype {
  import opened PyBuiltins

  /**
    The numpy dtypes the codec distinguishes. `Ci8`, `Ci16`, `Ci32` and
    `Cf16` are the structured (re, im) dtypes the module defines itself,
    since numpy has no such complex types. `OtherDtype` stands for every
    dtype not named here (bool, strings, other structured dtypes, ...).
   */
  datatype NumpyDtype =
    | Int8 | Int16 | Int32 | Int64
    | UInt8 | UInt16 | UInt32 | UInt64
    | Float16 | Float32 | Float64 | Float128
    | Complex64 | Complex128 | Complex256
    | Ci8 | Ci16 | Ci32 | Cf16
    | OtherDtype

  /**
    The `BF_DTYPE_*` codes of the native library. Their integer values are
    generated elsewhere, so the codes are abstract and pairwise distinct;
    `BfOther(code)` is any further enumeration value.
   */
  datatype BfDtype =
    | BfI8 | BfI16 | BfI32 | BfI64
    | BfU8 | BfU16 | BfU32 | BfU64
    | BfF16 | BfF32 | BfF64 | BfF128
    | BfCi8 | BfCi16 | BfCi32
    | BfCf16 | BfCf32 | BfCf64 | BfCf128
    | BfOther(code: int)

  /** The type families of the naming scheme. */
  datatype Family = SignedInt | UnsignedInt | Floating | ComplexInt | ComplexFloat

  function FamilyName(f: Family): (name: string)
    ensures |name| > 0 && NoDigit(name)
  {
    match f
    case SignedInt => "i"
    case UnsignedInt => "u"
    case Floating => "f"
    case ComplexInt => "ci"
    case ComplexFloat => "cf"
  }

  /**
    What a numpy dtype is, in the terms of the naming scheme: its family and
    the width in bits of one component. `None` for a dtype outside it.
   */
  function Descriptor(d: NumpyDtype): Option<(Family, nat)> {
    match d
    case Int8 => Some((SignedInt, 8))
    case Int16 => Some((SignedInt, 16))
    case Int32 => Some((SignedInt, 32))
    case Int64 => Some((SignedInt, 64))
    case UInt8 => Some((UnsignedInt, 8))
    case UInt16 => Some((UnsignedInt, 16))
    case UInt32 => Some((UnsignedInt, 32))
    case UInt64 => Some((UnsignedInt, 64))
    case Float16 => Some((Floating, 16))
    case Float32 => Some((Floating, 32))
    case Float64 => Some((Floating, 64))
    case Float128 => Some((Floating, 128))
    case Complex64 => Some((ComplexFloat, 32))
    case Complex128 => Some((ComplexFloat, 64))
    case Complex256 => Some((ComplexFloat, 128))
    case Ci8 => Some((ComplexInt, 8))
    case Ci16 => Some((ComplexInt, 16))
    case Ci32 => Some((ComplexInt, 32))
    case Cf16 => Some((ComplexFloat, 16))
    case OtherDtype => None
  }

  /** The same description for the native enumeration codes. */
  function BfDescriptor(c: BfDtype): Option<(Family, nat)> {
    match c
    case BfI8 => Some((SignedInt, 8))
    case BfI16 => Some((SignedInt, 16))
    case BfI32 => Some((SignedInt, 32))
    case BfI64 => Some((SignedInt, 64))
    case BfU8 => Some((UnsignedInt, 8))
    case BfU16 => Some((UnsignedInt, 16))
    case BfU32 => Some((UnsignedInt, 32))
    case BfU64 => Some((UnsignedInt, 64))
    case BfF16 => Some((Floating, 16))
    case BfF32 => Some((Floating, 32))
    case BfF64 => Some((Floating, 64))
    case BfF128 => Some((Floating, 128))
    case BfCi8 => Some((ComplexInt, 8))
    case BfCi16 => Some((ComplexInt, 16))
    case BfCi32 => Some((ComplexInt, 32))
    case BfCf16 => Some((ComplexFloat, 16))
    case BfCf32 => Some((ComplexFloat, 32))
    case BfCf64 => Some((ComplexFloat, 64))
    case BfCf128 => Some((ComplexFloat, 128))
    case BfOther(_) => None
  }

  /** The canonical short string of a family and width, e.g. "cf" and 32 give "cf32". */
  function Spell(desc: (Family, nat)): string {
    FamilyName(desc.0) + Decimal(desc.1)
  }

  /** The decimal spellings of the widths the tables use. */
  lemma WidthSpellings()
    ensures Decimal(8) == "8" && Decimal(16) == "16" && Decimal(32) == "32"
    ensures Decimal(64) == "64" && Decimal(128) == "128"
  {
    assert Decimal(1) == "1" && Decimal(3) == "3" && Decimal(6) == "6";
    assert Decimal(12) == "12";
  }

  /** The canonical strings of the integer dtypes. */
  lemma IntegerSpellings()
    ensures Spell((SignedInt, 8)) == "i8" && Spell((SignedInt, 16)) == "i16"
    ensures Spell((SignedInt, 32)) == "i32" && Spell((SignedInt, 64)) == "i64"
    ensures Spell((UnsignedInt, 8)) == "u8" && Spell((UnsignedInt, 16)) == "u16"
    ensures Spell((UnsignedInt, 32)) == "u32" && Spell((UnsignedInt, 64)) == "u64"
  {
    WidthSpellings();
  }

  /** The canonical strings of the real and complex floating-point dtypes. */
  lemma FloatSpellings()
    ensures Spell((Floating, 16)) == "f16" && Spell((Floating, 32)) == "f32"
    ensures Spell((Floating, 64)) == "f64" && Spell((Floating, 128)) == "f128"
    ensures Spell((ComplexFloat, 16)) == "cf16" && Spell((ComplexFloat, 32)) == "cf32"
    ensures Spell((ComplexFloat, 64)) == "cf64" && Spell((ComplexFloat, 128)) == "cf128"
  {
    WidthSpellings();
  }

  /** The canonical strings of the complex integer dtypes. */
  lemma ComplexIntegerSpellings()
    ensures Spell((ComplexInt, 8)) == "ci8" && Spell((ComplexInt, 16)) == "ci16"
    ensures Spell((ComplexInt, 32)) == "ci32"
  {
    WidthSpellings();
  }

  /**
    `s` spells `d`: it starts with the family name of `d`, followed by a
    digit, and `int()` reads the rest as the width of `d`.
   */
  predicate Spells(s: string, d: NumpyDtype) {
    match Descriptor(d)
    case Some((f, bits)) =>
      var n := |FamilyName(f)|;
      && n < |s|
      && s[..n] == FamilyName(f)
      && IsDigit(s[n])
      && ParseInt(s[n..]) == Ok(bits)
    case None => false
  }

  /** `d` is the dtype the pair (name, nbit) names. */
  predicate Names(d: NumpyDtype, name: string, nbit: int) {
    match Descriptor(d)
    case Some((f, bits)) => FamilyName(f) == name && bits == nbit
    case None => false
  }

  /** The structured dtypes the module defines itself, rather than numpy. */
  predicate IsCustom(d: NumpyDtype) {
    d == Ci8 || d == Ci16 || d == Ci32 || d == Cf16
  }

  /** A dtype built on numpy's extended-precision (long double) float. */
  predicate IsExtended(desc: (Family, nat)) {
    (desc.0 == Floating || desc.0 == ComplexFloat) && desc.1 == 128
  }

  /** The 64-bit integer dtypes. */
  predicate IsWideInt(desc: (Family, nat)) {
    (desc.0 == SignedInt || desc.0 == UnsignedInt) && desc.1 == 64
  }

  /**
    Index of the Python loop `for i, char in enumerate(s): if char.isdigit(): break`
    after it ends, starting the scan at `i`: the first digit, or the last
    index when there is none.
   */
  function ScanToDigit(s: string, i: nat): (r: nat)
    requires i < |s|
    ensures i <= r < |s|
    ensures forall k :: i <= k < r ==> !IsDigit(s[k])
    ensures IsDigit(s[r]) || r == |s| - 1
    decreases |s| - i
  {
    if IsDigit(s[i]) || i == |s| - 1 then i else ScanToDigit(s, i + 1)
  }

  /**
    `split_name_nbit`: the text before the first digit is the name, and the
    rest, read by `int()`, is the width. The empty string never binds the
    loop variable; a string without a digit hands its last character to
    `int()`.
   */
  function SplitNameNbit(s: string): (r: Result<(string, int)>)
    ensures |s| == 0 <==> r == Raise(UnboundLocalError)
    ensures |s| > 0 && NoDigit(s) ==> r == Raise(ValueError)
    ensures r.Raise? && |s| > 0 ==> r.error == ValueError
    ensures r.Ok? ==>
      var (name, nbit) := r.value;
      && |name| < |s|
      && s[..|name|] == name
      && NoDigit(name)
      && IsDigit(s[|name|])
      && ParseInt(s[|name|..]) == Ok(nbit)
      && nbit >= 0
  {
    if |s| == 0 then
      Raise(UnboundLocalError)
    else
      var i := ScanToDigit(s, 0);
      match ParseInt(s[i..])
      case Raise(e) => Raise(e)
      case Ok(nbit) =>
        DigitAtScanEnd(s, i);
        Ok((s[..i], nbit))
  }

  /**
    When `int()` accepts the text from where the scan stopped, the scan
    stopped at a digit, and the number read is not negative.
   */
  lemma DigitAtScanEnd(s: string, i: nat)
    requires i < |s| && (IsDigit(s[i]) || i == |s| - 1)
    requires ParseInt(s[i..]).Ok?
    ensures IsDigit(s[i])
    ensures ParseInt(s[i..]).value >= 0
  {
    var t := s[i..];
    ParseIntNeedsDigit(t);
    assert !NoDigit(t);
    assert t[0] == s[i];
    assert IsDigit(s[i]) || |t| == 1;
    ParseIntNonNegative(t);
  }

  /**
    `name_nbit2numpy`: the dtype named by the family name and width. Unknown
    names and widths raise `TypeError`, except in the "ci" family, whose
    branch has no `else` and so returns `None` for any other width.
   */
  function NameNbit2Numpy(name: string, nbit: int): (r: Result<Option<NumpyDtype>>)
    ensures r.Ok? && r.value.Some? ==> Names(r.value.value, name, nbit)
    ensures r.Ok? && r.value.None? ==> name == "ci"
    ensures r.Raise? ==> r.error == TypeError && name != "ci"
  {
    if name == "i" then
      if nbit == 8 then Ok(Some(Int8))
      else if nbit == 16 then Ok(Some(Int16))
      else if nbit == 32 then Ok(Some(Int32))
      else if nbit == 64 then Ok(Some(Int64))
      else Raise(TypeError)
    else if name == "u" then
      if nbit == 8 then Ok(Some(UInt8))
      else if nbit == 16 then Ok(Some(UInt16))
      else if nbit == 32 then Ok(Some(UInt32))
      else if nbit == 64 then Ok(Some(UInt64))
      else Raise(TypeError)
    else if name == "f" then
      if nbit == 16 then Ok(Some(Float16))
      else if nbit == 32 then Ok(Some(Float32))
      else if nbit == 64 then Ok(Some(Float64))
      else if nbit == 128 then Ok(Some(Float128))
      else Raise(TypeError)
    else if name == "ci" then
      if nbit == 8 then Ok(Some(Ci8))
      else if nbit == 16 then Ok(Some(Ci16))
      else if nbit == 32 then Ok(Some(Ci32))
      else Ok(None)
    else if name == "cf" then
      if nbit == 16 then Ok(Some(Cf16))
      else if nbit == 32 then Ok(Some(Complex64))
      else if nbit == 64 then Ok(Some(Complex128))
      else if nbit == 128 then Ok(Some(Complex256))
      else Raise(TypeError)
    else
      Raise(TypeError)
  }

  /** `string2numpy`: splits the string and looks the pair up. */
  function String2Numpy(s: string): (r: Result<Option<NumpyDtype>>)
    ensures |s| == 0 ==> r == Raise(UnboundLocalError)
    ensures |s| > 0 && NoDigit(s) ==> r == Raise(ValueError)
    ensures SplitNameNbit(s).Raise? ==> r == Raise(SplitNameNbit(s).error)
    ensures r.Ok? && r.value.Some? ==> Spells(s, r.value.value)
  {
    var (name, nbit) :- SplitNameNbit(s);
    NameNbit2Numpy(name, nbit)
  }

  /**
    `numpy2string`: the short string of a dtype, one branch of
    `numpy2string`'s `if`/`elif` chain per case. The structured dtypes the
    module defines, and every dtype outside the naming scheme, raise
    `TypeError`.
   */
  function Numpy2String(d: NumpyDtype): (r: Result<string>)
    ensures r.Ok? <==> Descriptor(d).Some? && !IsCustom(d)
    ensures r.Raise? ==> r.error == TypeError
  {
    match d
    case Int8 => Ok("i8")
    case Int16 => Ok("i16")
    case Int32 => Ok("i32")
    case Int64 => Ok("i64")
    case UInt8 => Ok("u8")
    case UInt16 => Ok("u16")
    case UInt32 => Ok("u32")
    case UInt64 => Ok("u64")
    case Float16 => Ok("f16")
    case Float32 => Ok("f32")
    case Float64 => Ok("f64")
    case Float128 => Ok("f128")
    case Complex64 => Ok("cf32")
    case Complex128 => Ok("cf64")
    case Complex256 => Ok("cf128")
    case _ => Raise(TypeError)
  }

  /** Every string `numpy2string` returns is the canonical spelling of the dtype's family and width. */
  lemma Numpy2StringCanonical(d: NumpyDtype)
    requires Numpy2String(d).Ok?
    ensures Numpy2String(d).value == Spell(Descriptor(d).value)
  {
    match d
    case Int8 | Int16 | Int32 | Int64 | UInt8 | UInt16 | UInt32 | UInt64 => IntegerSpellings();
    case _ => FloatSpellings();
  }

  /**
    `numpy2bifrost`: the native code of a dtype, one branch of
    `numpy2bifrost`'s `if`/`elif` chain per case. The 64-bit integers have no
    code, the extended-precision types have one only when the library was
    built with `BF_FLOAT128_ENABLED`, and anything else raises `ValueError`.
   */
  function Numpy2Bifrost(float128Enabled: bool, d: NumpyDtype): (r: Result<BfDtype>)
    ensures r.Ok? <==>
      Descriptor(d).Some? && !IsWideInt(Descriptor(d).value)
      && (float128Enabled || !IsExtended(Descriptor(d).value))
    ensures r.Ok? ==> BfDescriptor(r.value) == Descriptor(d)
    ensures r.Raise? ==> r.error == ValueError
  {
    match d
    case Int8 => Ok(BfI8)
    case Int16 => Ok(BfI16)
    case Int32 => Ok(BfI32)
    case UInt8 => Ok(BfU8)
    case UInt16 => Ok(BfU16)
    case UInt32 => Ok(BfU32)
    case Float16 => Ok(BfF16)
    case Float32 => Ok(BfF32)
    case Float64 => Ok(BfF64)
    case Float128 => if float128Enabled then Ok(BfF128) else Raise(ValueError)
    case Ci8 => Ok(BfCi8)
    case Ci16 => Ok(BfCi16)
    case Ci32 => Ok(BfCi32)
    case Cf16 => Ok(BfCf16)
    case Complex64 => Ok(BfCf32)
    case Complex128 => Ok(BfCf64)
    case Complex256 => if float128Enabled then Ok(BfCf128) else Raise(ValueError)
    case _ => Raise(ValueError)
  }

  /** The lookup table of `bifrost2string`. */
  function TypeDict(float128Enabled: bool): map<BfDtype, string> {
    var base := map[
      BfI8 := "i8", BfI16 := "i16", BfI32 := "i32", BfI64 := "i64",
      BfU8 := "u8", BfU16 := "u16", BfU32 := "u32", BfU64 := "u64",
      BfF16 := "f16", BfF32 := "f32", BfF64 := "f64",
      BfCi8 := "ci8", BfCi16 := "ci16", BfCi32 := "ci32",
      BfCf16 := "cf16", BfCf32 := "cf32", BfCf64 := "cf64"];
    if float128Enabled then base[BfCf128 := "cf128"][BfF128 := "f128"] else base
  }

  /** The table holds exactly the described codes, less the extended ones when disabled. */
  lemma TypeDictKeys(float128Enabled: bool, c: BfDtype)
    ensures c in TypeDict(float128Enabled) <==>
      BfDescriptor(c).Some? && (float128Enabled || !IsExtended(BfDescriptor(c).value))
  {
  }

  lemma BaseEntry(c: BfDtype)
    requires c in TypeDict(false)
    ensures TypeDict(false)[c] == Spell(BfDescriptor(c).value)
  {
    match c
    case BfI8 | BfI16 | BfI32 | BfI64 | BfU8 | BfU16 | BfU32 | BfU64 => IntegerEntry(c);
    case BfCi8 | BfCi16 | BfCi32 => ComplexIntegerEntry(c);
    case _ => FloatEntry(c);
  }

  lemma IntegerEntry(c: BfDtype)
    requires c in {BfI8, BfI16, BfI32, BfI64, BfU8, BfU16, BfU32, BfU64}
    ensures c in TypeDict(false) && TypeDict(false)[c] == Spell(BfDescriptor(c).value)
  {
    IntegerSpellings();
  }

  lemma ComplexIntegerEntry(c: BfDtype)
    requires c in {BfCi8, BfCi16, BfCi32}
    ensures c in TypeDict(false) && TypeDict(false)[c] == Spell(BfDescriptor(c).value)
  {
    ComplexIntegerSpellings();
  }

  lemma FloatEntry(c: BfDtype)
    requires c in {BfF16, BfF32, BfF64, BfCf16, BfCf32, BfCf64}
    ensures c in TypeDict(false) && TypeDict(false)[c] == Spell(BfDescriptor(c).value)
  {
    FloatSpellings();
  }

  /** Every entry of the table spells its code's family and width. */
  lemma TypeDictEntry(float128Enabled: bool, c: BfDtype)
    requires c in TypeDict(float128Enabled)
    ensures TypeDict(float128Enabled)[c] == Spell(BfDescriptor(c).value)
  {
    if c == BfF128 || c == BfCf128 {
      FloatSpellings();
    } else {
      assert c in TypeDict(false) && TypeDict(float128Enabled)[c] == TypeDict(false)[c];
      BaseEntry(c);
    }
  }

  /**
    `bifrost2string`: the short string of a native code, by lookup in a
    table that gains the extended-precision entries only when the library
    was built with `BF_FLOAT128_ENABLED`. A code not in the table raises
    `ValueError`.
   */
  function Bifrost2String(float128Enabled: bool, c: BfDtype): (r: Result<string>)
    ensures r.Ok? <==>
      BfDescriptor(c).Some? && (float128Enabled || !IsExtended(BfDescriptor(c).value))
    ensures r.Ok? ==> r.value == Spell(BfDescriptor(c).value)
    ensures r.Raise? ==> r.error == ValueError
  {
    var typedict := TypeDict(float128Enabled);
    TypeDictKeys(float128Enabled, c);
    if c in typedict then
      TypeDictEntry(float128Enabled, c);
      Ok(typedict[c])
    else
      Raise(ValueError)
  }
}
