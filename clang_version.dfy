/**
  Compiler identity and version gate of the libcds Clang configuration.

  Clang reports its version through three predefined macros; the header folds
  them into one comparable integer `major * 10000 + minor * 100 + patch` and
  refuses to build with anything older than 3.6.0.
*/
module ClangVersion {

  /** The values of `__clang_major__`, `__clang_minor__` and `__clang_patchlevel__`. */
  datatype Triple = Triple(major: nat, minor: nat, patch: nat)

  /** Minor and patch fit in the two decimal digits the encoding reserves for them. */
  predicate TwoDigit(t: Triple) {
    t.minor < 100 && t.patch < 100
  }

  /** `CDS_COMPILER_VERSION`. */
  function Encode(t: Triple): (v: nat)
    ensures TwoDigit(t) ==> Decode(v) == t
  {
    t.major * 10000 + t.minor * 100 + t.patch
  }

  /** Splits an encoded version back into its three components. */
  function Decode(v: nat): (t: Triple)
    ensures TwoDigit(t)
  {
    Triple(v / 10000, v / 100 % 100, v % 100)
  }

  /** Lexicographic order on version triples. */
  predicate Before(a: Triple, b: Triple) {
    || a.major < b.major
    || (a.major == b.major && a.minor < b.minor)
    || (a.major == b.major && a.minor == b.minor && a.patch < b.patch)
  }

  /** The oldest supported Clang, 3.6.0. */
  const Minimum: Triple := Triple(3, 6, 0)

  /** The encoded value the gate compares against. */
  const MinVersion: nat := 30600

  /** Short compiler nickname, `CDS_COMPILER__NICK`. */
  const Nick: string := "clang"

  /** `CDS_COMPILER__NAME`: "clang " followed by the compiler's own version string. */
  function DisplayName(clangVersionString: string): (name: string)
    ensures |name| == |Nick| + 1 + |clangVersionString|
    ensures name[..|Nick| + 1] == Nick + " "
    ensures name[|Nick| + 1..] == clangVersionString
  {
    Nick + " " + clangVersionString
  }

  /** The gate of the header: the build continues only when this holds. */
  predicate Supported(version: nat): (ok: bool)
    ensures ok <==> version >= Encode(Minimum)
  {
    version >= MinVersion
  }

  lemma MinVersionIsMinimum()
    ensures Encode(Minimum) == MinVersion
  {
  }

  /** Decoding undoes encoding for every two-digit triple. */
  lemma DecodeEncode(t: Triple)
    requires TwoDigit(t)
    ensures Decode(Encode(t)) == t
  {
  }

  /** Encoding undoes decoding: every encoded version comes from exactly one two-digit triple. */
  lemma EncodeDecode(v: nat)
    ensures Encode(Decode(v)) == v
  {
    var q := v / 100;
    assert v == q * 100 + v % 100;
    assert q == (q / 100) * 100 + q % 100;
    assert v / 10000 == q / 100;
  }

  /** Two two-digit triples with the same encoding are the same triple. */
  lemma EncodeInjective(a: Triple, b: Triple)
    requires TwoDigit(a) && TwoDigit(b)
    ensures Encode(a) == Encode(b) <==> a == b
  {
    if Encode(a) == Encode(b) {
      DecodeEncode(a);
      DecodeEncode(b);
    }
  }

  /** The encoding preserves and reflects the lexicographic order of two-digit triples. */
  lemma EncodeOrder(a: Triple, b: Triple)
    requires TwoDigit(a) && TwoDigit(b)
    ensures Before(a, b) <==> Encode(a) < Encode(b)
  {
  }

  /** The gate has an exact boundary: a triple passes iff it is not older than 3.6.0. */
  lemma GateBoundary(t: Triple)
    requires TwoDigit(t)
    ensures Supported(Encode(t)) <==> !Before(t, Minimum)
  {
    EncodeOrder(t, Minimum);
  }

  /** 3.6.0 passes the gate and 3.5.9 does not. */
  lemma GateExamples()
    ensures Supported(Encode(Triple(3, 6, 0)))
    ensures !Supported(Encode(Triple(3, 5, 9)))
  {
  }
}
