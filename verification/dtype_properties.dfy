/**
  Which conversions of the dtype-name codec undo each other, and where each
  one stops: the round trips between short strings, numpy dtypes and native
  codes, and the partiality of every direction.
 */
module DtypeProperties {
  import opened PyBuiltins
  import opened Dtype

  /** A name without digits followed by an integer starting with a digit splits back into the two. */
  lemma SplitOfNameAndNumber(name: string, number: string)
    requires NoDigit(name)
    requires |number| > 0 && IsDigit(number[0]) && ParseInt(number).Ok?
    ensures SplitNameNbit(name + number) == Ok((name, ParseInt(number).value))
  {
    var s := name + number;
    assert s[|name|] == number[0];
    var i := ScanToDigit(s, 0);
    assert i == |name| by {
      assert forall k :: 0 <= k < |name| ==> s[k] == name[k];
    }
    assert s[..i] == name && s[i..] == number;
  }

  /** `split_name_nbit(name + str(n)) == (name, n)`. */
  lemma SplitOfSpelling(name: string, n: nat)
    requires NoDigit(name)
    ensures SplitNameNbit(name + Decimal(n)) == Ok((name, n))
  {
    ParseIntOfDecimal(n);
    SplitOfNameAndNumber(name, Decimal(n));
  }

  /**
    A name without digits followed by text that starts with a digit but that
    `int()` rejects: splitting raises `ValueError`, and so does `string2numpy`.
   */
  lemma SplitOfBadNumber(name: string, number: string)
    requires NoDigit(name)
    requires |number| > 0 && IsDigit(number[0]) && ParseInt(number).Raise?
    ensures SplitNameNbit(name + number) == Raise(ValueError)
    ensures String2Numpy(name + number) == Raise(ValueError)
  {
    var s := name + number;
    assert s[|name|] == number[0];
    var i := ScanToDigit(s, 0);
    assert i == |name| by {
      assert forall k :: 0 <= k < |name| ==> s[k] == name[k];
    }
    assert s[i..] == number;
  }

  /**
    A width followed by a character that is neither a digit nor white space,
    as in "i8x" or "i8\x1c", makes `string2numpy` raise `ValueError`.
   */
  lemma TrailingJunkRaises(name: string, digits: string, c: char)
    requires NoDigit(name) && |digits| > 0 && AllDigits(digits)
    requires !IsDigit(c) && !IsSpace(c)
    ensures String2Numpy(name + digits + [c]) == Raise(ValueError)
  {
    var number := digits + [c];
    assert number[0] == digits[0] && number[|number| - 1] == c;
    ParseIntEndsInNonDigit(number);
    SplitOfBadNumber(name, number);
    ConcatAssociates(name, digits, [c]);
  }

  /** Every dtype of the naming scheme is found from its family name and width. */
  lemma NameNbit2NumpyComplete(d: NumpyDtype)
    requires Descriptor(d).Some?
    ensures NameNbit2Numpy(FamilyName(Descriptor(d).value.0), Descriptor(d).value.1) == Ok(Some(d))
  {
  }

  /**
    `name_nbit2numpy` raises exactly when the name is not "ci" and no dtype
    carries that name and width.
   */
  lemma NameNbit2NumpyRaisesIff(name: string, nbit: int)
    ensures NameNbit2Numpy(name, nbit).Raise? <==>
      name != "ci" && forall d :: !Names(d, name, nbit)
  {
    forall d | Names(d, name, nbit)
      ensures NameNbit2Numpy(name, nbit) == Ok(Some(d))
    {
      NameNbit2NumpyComplete(d);
    }
  }

  /**
    The "ci" family never raises: it returns `None` exactly for the widths
    no complex-integer dtype has, among them the 4 of the documented "ci4".
   */
  lemma CiFamilyReturnsNone(nbit: int)
    ensures NameNbit2Numpy("ci", nbit).Ok?
    ensures NameNbit2Numpy("ci", nbit) == Ok(None) <==> forall d :: !Names(d, "ci", nbit)
    ensures NameNbit2Numpy("ci", nbit) == Ok(None) <==> nbit != 8 && nbit != 16 && nbit != 32
  {
    forall d | Names(d, "ci", nbit)
      ensures NameNbit2Numpy("ci", nbit) == Ok(Some(d))
    {
      NameNbit2NumpyComplete(d);
    }
  }

  /** `string2numpy` looks up whatever `split_name_nbit` returns. */
  lemma String2NumpyOfSplit(s: string, name: string, nbit: int)
    requires SplitNameNbit(s) == Ok((name, nbit))
    ensures String2Numpy(s) == NameNbit2Numpy(name, nbit)
  {
  }

  /** `string2numpy(s)` is the dtype `d` exactly when `s` spells `d`. */
  lemma String2NumpyIff(s: string, d: NumpyDtype)
    ensures String2Numpy(s) == Ok(Some(d)) <==> Spells(s, d)
  {
    if Spells(s, d) {
      var (f, bits) := Descriptor(d).value;
      var n := |FamilyName(f)|;
      assert s == FamilyName(f) + s[n..];
      SplitOfNameAndNumber(FamilyName(f), s[n..]);
      String2NumpyOfSplit(s, FamilyName(f), bits);
      NameNbit2NumpyComplete(d);
    }
  }

  /** The canonical spelling of a dtype converts back to that dtype. */
  lemma String2NumpyOfSpell(d: NumpyDtype)
    requires Descriptor(d).Some?
    ensures String2Numpy(Spell(Descriptor(d).value)) == Ok(Some(d))
  {
    var (f, bits) := Descriptor(d).value;
    SplitOfSpelling(FamilyName(f), bits);
    String2NumpyOfSplit(Spell((f, bits)), FamilyName(f), bits);
    NameNbit2NumpyComplete(d);
  }

  /** Distinct dtypes have distinct canonical spellings. */
  lemma SpellInjective(d1: NumpyDtype, d2: NumpyDtype)
    requires Descriptor(d1).Some? && Descriptor(d2).Some?
    requires Spell(Descriptor(d1).value) == Spell(Descriptor(d2).value)
    ensures d1 == d2
  {
    String2NumpyOfSpell(d1);
    String2NumpyOfSpell(d2);
  }

  /** `string2numpy(numpy2string(d)) == d` whenever `numpy2string` succeeds. */
  lemma Numpy2StringRoundTrip(d: NumpyDtype)
    requires Numpy2String(d).Ok?
    ensures String2Numpy(Numpy2String(d).value) == Ok(Some(d))
  {
    Numpy2StringCanonical(d);
    String2NumpyOfSpell(d);
  }

  /**
    `numpy2string(string2numpy(s)) == s` holds exactly for the canonical
    spelling of a dtype numpy itself provides; the module's own structured
    dtypes have no string at all.
   */
  lemma String2NumpyRoundTrip(s: string)
    requires String2Numpy(s).Ok? && String2Numpy(s).value.Some?
    ensures var d := String2Numpy(s).value.value;
      && (Numpy2String(d) == Ok(s) <==> !IsCustom(d) && s == Spell(Descriptor(d).value))
      && (IsCustom(d) <==> Numpy2String(d) == Raise(TypeError))
  {
    var d := String2Numpy(s).value.value;
    if Numpy2String(d).Ok? {
      Numpy2StringCanonical(d);
    }
  }

  /** The structured dtypes convert from their strings but not back. */
  lemma CustomDtypesOneWay(d: NumpyDtype)
    requires IsCustom(d)
    ensures String2Numpy(Spell(Descriptor(d).value)) == Ok(Some(d))
    ensures Numpy2String(d) == Raise(TypeError)
  {
    String2NumpyOfSpell(d);
  }

  /**
    A zero before the width still names the dtype, as "i08" names int8, but
    `numpy2string` gives back the canonical string without it.
   */
  lemma LeadingZeroNotRestored(d: NumpyDtype, f: Family, bits: nat)
    requires Descriptor(d) == Some((f, bits))
    ensures String2Numpy(FamilyName(f) + "0" + Decimal(bits)) == Ok(Some(d))
    ensures Numpy2String(d) != Ok(FamilyName(f) + "0" + Decimal(bits))
  {
    var number := "0" + Decimal(bits);
    ZeroPaddedWidth(bits, number);
    NamedByNumber(d, FamilyName(f), number);
    ConcatAssociates(FamilyName(f), "0", Decimal(bits));
    LeadingZeroLonger(d, FamilyName(f) + number);
  }

  lemma ConcatAssociates(a: string, b: string, c: string)
    ensures a + b + c == a + (b + c)
  {
  }

  /** `int()` reads a width written with one leading zero as that width. */
  lemma ZeroPaddedWidth(bits: nat, number: string)
    requires number == "0" + Decimal(bits)
    ensures |number| > 0 && IsDigit(number[0]) && ParseInt(number) == Ok(bits)
  {
    ParseIntLeadingZero(Decimal(bits));
    ParseIntOfDecimal(bits);
  }

  /** The family name followed by any text `int()` reads as the width names the dtype. */
  lemma NamedByNumber(d: NumpyDtype, name: string, number: string)
    requires Descriptor(d).Some? && name == FamilyName(Descriptor(d).value.0)
    requires |number| > 0 && IsDigit(number[0])
    requires ParseInt(number) == Ok(Descriptor(d).value.1)
    ensures String2Numpy(name + number) == Ok(Some(d))
  {
    SplitOfNameAndNumber(name, number);
    String2NumpyOfSplit(name + number, name, Descriptor(d).value.1);
    NameNbit2NumpyComplete(d);
  }

  /** A string one character longer than the canonical one is not returned. */
  lemma LeadingZeroLonger(d: NumpyDtype, s: string)
    requires Descriptor(d).Some? && |s| == |Spell(Descriptor(d).value)| + 1
    ensures Numpy2String(d) != Ok(s)
  {
    if Numpy2String(d).Ok? {
      Numpy2StringCanonical(d);
    }
  }

  /** A string that splits into "ci" and a width no dtype has gives `None`. */
  lemma CiSplitIsNone(s: string, n: nat)
    requires SplitNameNbit(s) == Ok(("ci", n))
    requires n != 8 && n != 16 && n != 32
    ensures String2Numpy(s) == Ok(None)
  {
    String2NumpyOfSplit(s, "ci", n);
    CiFamilyReturnsNone(n);
  }

  /**
    A "ci" string whose width no complex-integer dtype has, such as the
    documented "ci4", returns `None` rather than a dtype or an error.
   */
  lemma CiSpellingIsNone(n: nat)
    requires n != 8 && n != 16 && n != 32
    ensures String2Numpy("ci" + Decimal(n)) == Ok(None)
  {
    SplitOfCiSpelling(n);
    CiSplitIsNone("ci" + Decimal(n), n);
  }

  /** "ci" followed by a width splits into "ci" and that width. */
  lemma SplitOfCiSpelling(n: nat)
    ensures SplitNameNbit("ci" + Decimal(n)) == Ok(("ci", n))
  {
    SplitOfSpelling("ci", n);
  }

  /**
    Round trip through the native code: a dtype `numpy2bifrost` accepts comes
    back from `string2numpy(bifrost2string(numpy2bifrost(d)))`, with the
    same extended-precision setting on both native calls, and the string in
    between is the canonical one.
   */
  lemma EnumRoundTrip(float128Enabled: bool, d: NumpyDtype)
    requires Numpy2Bifrost(float128Enabled, d).Ok?
    ensures var c := Numpy2Bifrost(float128Enabled, d).value;
      && Bifrost2String(float128Enabled, c) == Ok(Spell(Descriptor(d).value))
      && String2Numpy(Bifrost2String(float128Enabled, c).value) == Ok(Some(d))
  {
    String2NumpyOfSpell(d);
  }

  /** Distinct dtypes get distinct native codes. */
  lemma Numpy2BifrostInjective(float128Enabled: bool, d1: NumpyDtype, d2: NumpyDtype)
    requires Numpy2Bifrost(float128Enabled, d1).Ok?
    requires Numpy2Bifrost(float128Enabled, d1) == Numpy2Bifrost(float128Enabled, d2)
    ensures d1 == d2
  {
    EnumRoundTrip(float128Enabled, d1);
    EnumRoundTrip(float128Enabled, d2);
  }

  /** Some numpy dtype carries the description of every described native code. */
  lemma DtypeOfCode(c: BfDtype) returns (d: NumpyDtype)
    requires BfDescriptor(c).Some?
    ensures Descriptor(d) == BfDescriptor(c)
  {
    match c
    case BfI8 => d := Int8;
    case BfI16 => d := Int16;
    case BfI32 => d := Int32;
    case BfI64 => d := Int64;
    case BfU8 => d := UInt8;
    case BfU16 => d := UInt16;
    case BfU32 => d := UInt32;
    case BfU64 => d := UInt64;
    case BfF16 => d := Float16;
    case BfF32 => d := Float32;
    case BfF64 => d := Float64;
    case BfF128 => d := Float128;
    case BfCi8 => d := Ci8;
    case BfCi16 => d := Ci16;
    case BfCi32 => d := Ci32;
    case BfCf16 => d := Cf16;
    case BfCf32 => d := Complex64;
    case BfCf64 => d := Complex128;
    case BfCf128 => d := Complex256;
  }

  /** Native codes with the same description are the same code. */
  lemma BfDescriptorInjective(c1: BfDtype, c2: BfDtype)
    requires BfDescriptor(c1).Some? && BfDescriptor(c1) == BfDescriptor(c2)
    ensures c1 == c2
  {
  }

  /**
    The other way round: every string `bifrost2string` produces names a
    dtype, and `numpy2bifrost` maps that dtype back to the same code except
    for the 64-bit integers, which it rejects.
   */
  lemma EnumToStringRoundTrip(float128Enabled: bool, c: BfDtype)
    requires Bifrost2String(float128Enabled, c).Ok?
    ensures var r := String2Numpy(Bifrost2String(float128Enabled, c).value);
      && r.Ok? && r.value.Some?
      && Descriptor(r.value.value) == BfDescriptor(c)
      && (Numpy2Bifrost(float128Enabled, r.value.value) == Ok(c) <==> !IsWideInt(BfDescriptor(c).value))
  {
    var d := DtypeOfCode(c);
    String2NumpyOfSpell(d);
    var back := Numpy2Bifrost(float128Enabled, d);
    if back.Ok? {
      BfDescriptorInjective(c, back.value);
    }
  }

  /** The 64-bit integer codes have strings naming a dtype, but no dtype maps to them. */
  lemma WideIntsOneWay(float128Enabled: bool, c: BfDtype)
    requires BfDescriptor(c).Some? && IsWideInt(BfDescriptor(c).value)
    ensures Bifrost2String(float128Enabled, c).Ok?
    ensures var r := String2Numpy(Bifrost2String(float128Enabled, c).value);
      r.Ok? && r.value.Some? && Numpy2Bifrost(float128Enabled, r.value.value) == Raise(ValueError)
    ensures forall d :: Numpy2Bifrost(float128Enabled, d) != Ok(c)
  {
    EnumToStringRoundTrip(float128Enabled, c);
  }

  /** The extended-precision setting changes `numpy2bifrost` on the 128-bit types only. */
  lemma Float128GatesNumpy2Bifrost(d: NumpyDtype)
    ensures Numpy2Bifrost(true, d) != Numpy2Bifrost(false, d) <==>
      Descriptor(d).Some? && IsExtended(Descriptor(d).value)
    ensures Descriptor(d).Some? && IsExtended(Descriptor(d).value) ==>
      Numpy2Bifrost(false, d) == Raise(ValueError) && Numpy2Bifrost(true, d).Ok?
  {
  }

  /** The extended-precision setting changes `bifrost2string` on the 128-bit codes only. */
  lemma Float128GatesBifrost2String(c: BfDtype)
    ensures Bifrost2String(true, c) != Bifrost2String(false, c) <==>
      BfDescriptor(c).Some? && IsExtended(BfDescriptor(c).value)
    ensures BfDescriptor(c).Some? && IsExtended(BfDescriptor(c).value) ==>
      Bifrost2String(false, c) == Raise(ValueError) && Bifrost2String(true, c).Ok?
  {
  }
}
