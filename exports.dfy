/**
  The annotation and branch-hint macros that the libcds Clang configuration
  exports: `CDS_DEPRECATED`, `cds_likely`/`cds_unlikely` and the alignment
  macros. Annotations are modelled by the token text they expand to.
*/
module Exports {
  import opened Wrappers

  /**
    The three spellings of `CDS_DEPRECATED(reason)`: the GNU attribute, the
    GNU-scoped C++11 attribute, and the standard `[[deprecated]]` attribute of
    C++14 (section 7.6.5 of ISO/IEC 14882:2014).
  */
  datatype DeprecationForm = GnuAttribute | GnuScopedAttribute | StandardAttribute

  /** Clang versions from this one on get a spelling chosen by the language level. */
  const ScopedAttributeVersion: nat := 30400

  /** `__cplusplus` of C++11 (ISO/IEC 14882:2011). */
  const Cxx11: int := 201103

  /** Which spelling `CDS_DEPRECATED` takes for an encoded Clang version and `__cplusplus`. */
  function DeprecationFormFor(version: nat, cplusplus: int): (f: DeprecationForm)
    ensures version < ScopedAttributeVersion || cplusplus < Cxx11 ==> f == GnuAttribute
    ensures f == StandardAttribute ==> cplusplus > Cxx11
  {
    if version >= ScopedAttributeVersion then
      if cplusplus < Cxx11 then GnuAttribute
      else if cplusplus == Cxx11 then GnuScopedAttribute
      else StandardAttribute
    else GnuAttribute
  }

  function Opening(f: DeprecationForm): string {
    match f
    case GnuAttribute => "__attribute__((deprecated("
    case GnuScopedAttribute => "[[gnu::deprecated("
    case StandardAttribute => "[[deprecated("
  }

  function Closing(f: DeprecationForm): string {
    match f
    case GnuAttribute => ")))"
    case GnuScopedAttribute | StandardAttribute => ")]]"
  }

  /** The tokens `CDS_DEPRECATED(reason)` expands to in the given form. */
  function Deprecated(f: DeprecationForm, reason: string): (s: string)
    ensures |s| == |Opening(f)| + |reason| + |Closing(f)|
    ensures s[|Opening(f)|..|Opening(f)| + |reason|] == reason
  {
    Opening(f) + reason + Closing(f)
  }

  /** Reads the reason back out of an expansion of the given form, if the text is one. */
  function ReasonOf(f: DeprecationForm, text: string): Option<string> {
    var o, c := Opening(f), Closing(f);
    if |o| + |c| <= |text| && text[..|o|] == o && text[|text| - |c|..] == c
    then Some(text[|o|..|text| - |c|])
    else None
  }

  /** Below Clang 3.4 the GNU attribute is always used. */
  lemma DeprecationBeforeScoped(version: nat, cplusplus: int)
    requires version < 30400
    ensures DeprecationFormFor(version, cplusplus) == GnuAttribute
  {
  }

  /** From Clang 3.4 on, the spelling follows `__cplusplus` three ways, and each way is taken. */
  lemma DeprecationThreeWay(version: nat, cplusplus: int)
    requires version >= 30400
    ensures DeprecationFormFor(version, cplusplus) == GnuAttribute <==> cplusplus < 201103
    ensures DeprecationFormFor(version, cplusplus) == GnuScopedAttribute <==> cplusplus == 201103
    ensures DeprecationFormFor(version, cplusplus) == StandardAttribute <==> cplusplus > 201103
  {
  }

  /** Every spelling carries the reason verbatim: it can be read back out unchanged. */
  lemma ReasonPreserved(f: DeprecationForm, reason: string)
    ensures ReasonOf(f, Deprecated(f, reason)) == Some(reason)
  {
  }

  /** Only expansions have a reason: whatever `ReasonOf` accepts is the expansion of what it returns. */
  lemma ReasonOfOnlyExpansions(f: DeprecationForm, text: string)
    requires ReasonOf(f, text).Some?
    ensures Deprecated(f, ReasonOf(f, text).value) == text
  {
  }

  /** The three spellings are distinct, and an expansion determines both its form and its reason. */
  lemma DeprecatedInjective(f1: DeprecationForm, r1: string, f2: DeprecationForm, r2: string)
    requires Deprecated(f1, r1) == Deprecated(f2, r2)
    ensures f1 == f2 && r1 == r2
  {
    var o1, o2 := Opening(f1), Opening(f2);
    var t := o1 + r1 + Closing(f1);
    assert t == o2 + r2 + Closing(f2);
    assert o1[0] == t[0] == o2[0];
    assert o1[2] == t[2] == o2[2];
    assert f1 == f2;
    ReasonPreserved(f1, r1);
    ReasonPreserved(f2, r2);
  }

  /** `!!e` in C: 1 for any non-zero operand, 0 for zero. */
  function NotNot(e: int): int {
    if e == 0 then 0 else 1
  }

  /** `__builtin_expect(v, expected)` evaluates to `v`; `expected` only guides code layout. */
  function BuiltinExpect(v: int, expected: int): int {
    v
  }

  /** `cds_likely(expr)`. */
  function Likely(e: int): (r: int)
    ensures r == 0 || r == 1
    ensures r != 0 <==> e != 0
  {
    BuiltinExpect(NotNot(e), 1)
  }

  /** `cds_unlikely(expr)`. */
  function Unlikely(e: int): (r: int)
    ensures r == 0 || r == 1
    ensures r != 0 <==> e != 0
  {
    BuiltinExpect(NotNot(e), 0)
  }

  /** The two hints compute the same value, and hinting a hinted value changes nothing. */
  lemma HintsAgree(e: int)
    ensures Likely(e) == Unlikely(e)
    ensures Likely(Likely(e)) == Likely(e) && Unlikely(Unlikely(e)) == Unlikely(e)
  {
  }

  /** Where an alignment macro is used: a type, a class or a data object. */
  datatype AlignSite = TypeSite | ClassSite | DataSite

  /** The attribute `__attribute__((aligned(n)))`. */
  datatype Attribute = Aligned(bytes: nat)

  /** `CDS_TYPE_ALIGNMENT`, `CDS_CLASS_ALIGNMENT` and `CDS_DATA_ALIGNMENT`. */
  function Alignment(site: AlignSite, n: nat): (a: Attribute)
    ensures a.bytes == n
  {
    Aligned(n)
  }

  /** The three alignment macros expand to the same attribute, carrying the requested alignment. */
  lemma AlignmentSiteIndependent(s1: AlignSite, s2: AlignSite, n: nat)
    ensures Alignment(s1, n) == Alignment(s2, n)
    ensures Alignment(s1, n).bytes == n
  {
  }
}
