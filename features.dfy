/**
  Feature flags of the libcds Clang configuration. Each flag is a boolean
  function of the build environment; `true` stands for "the macro is defined".
*/
module Features {
  import opened Wrappers
  import opened ClangVersion
  import opened BuildEnvironment
  import opened Platform

  /** Below this version libc++'s atomics crash programs, so libcds uses its own. */
  const LibcppAtomicFixedVersion: nat := 30700

  /** Below this version OS X mis-implements `thread_local`. */
  const OsxThreadLocalFixedVersion: nat := 30600

  /**
    `CDS_USE_LIBCDS_ATOMIC`: predefined by the user, or defined by this header
    for libc++ without Boost atomics below 3.7.0.
  */
  function UseLibcdsAtomic(env: BuildEnv): (r: bool)
    ensures env.userLibcdsAtomic ==> r
    ensures r ==> env.userLibcdsAtomic || (env.libcpp && !env.useBoostAtomic)
    ensures env.useBoostAtomic ==> (r <==> env.userLibcdsAtomic)
  {
    env.userLibcdsAtomic
    || (env.libcpp && !env.useBoostAtomic && Version(env) < LibcppAtomicFixedVersion)
  }

  /** `CDS_CXX11_THREAD_LOCAL_SUPPORT`; an undefined OS type is not OS X. */
  function ThreadLocalSupport(env: BuildEnv): (r: bool)
    ensures Supported(Version(env)) ==> r
    ensures !r ==> OsTypeOf(env) == Some(OSX)
  {
    !(OsTypeOf(env) == Some(OSX) && Version(env) < OsxThreadLocalFixedVersion)
  }

  /** `CDS_THREAD_SANITIZER_ENABLED`: predefined by the user, or detected by `__has_feature`. */
  function ThreadSanitizer(env: BuildEnv): (r: bool)
    ensures env.userThreadSanitizer ==> r
    ensures env.hasFeatureMacro && env.featureThreadSanitizer ==> r
    ensures r ==> env.userThreadSanitizer || (env.hasFeatureMacro && env.featureThreadSanitizer)
  {
    env.userThreadSanitizer || (env.hasFeatureMacro && env.featureThreadSanitizer)
  }

  /** `CDS_ADDRESS_SANITIZER_ENABLED`: predefined by the user, or detected by `__has_feature`. */
  function AddressSanitizer(env: BuildEnv): (r: bool)
    ensures env.userAddressSanitizer ==> r
    ensures env.hasFeatureMacro && env.featureAddressSanitizer ==> r
    ensures r ==> env.userAddressSanitizer || (env.hasFeatureMacro && env.featureAddressSanitizer)
  {
    env.userAddressSanitizer || (env.hasFeatureMacro && env.featureAddressSanitizer)
  }

  /** `CDS_EXCEPTION_ENABLED`: `__EXCEPTIONS` is defined and equal to 1. */
  function ExceptionsEnabled(env: BuildEnv): (r: bool)
    ensures r ==> env.exceptionsMacro.Some?
  {
    env.exceptionsMacro == Some(1)
  }

  /** The target is 64-bit exactly when `CDS_BUILD_BITS == 64`; every other value takes the 32-bit branch. */
  predicate Is64Bit(env: BuildEnv) {
    env.buildBits == 64
  }

  /** The opt-out macro that applies to the current build width. */
  function WideAtomicOptOut(env: BuildEnv): bool {
    if Is64Bit(env) then env.disable128BitAtomic else env.disable64BitAtomic
  }

  /** The double-width CAS primitive that the current build width needs. */
  function WideCasPrimitive(env: BuildEnv): bool {
    if Is64Bit(env) then env.haveCas16 else env.haveCas8
  }

  /** `CDS_DCAS_SUPPORT`: only with libc++. */
  function DcasSupport(env: BuildEnv): (r: bool)
    ensures r ==> env.libcpp && !WideAtomicOptOut(env) && WideCasPrimitive(env)
  {
    if env.libcpp then
      if Is64Bit(env) then !env.disable128BitAtomic && env.haveCas16
      else !env.disable64BitAtomic && env.haveCas8
    else false
  }

  /**
    Without a predefinition, the libcds atomic fallback is taken exactly for
    libc++ without Boost atomics on a version below 3.7.0; a predefinition
    always takes it.
  */
  lemma LibcdsAtomicCondition(env: BuildEnv)
    ensures env.userLibcdsAtomic ==> UseLibcdsAtomic(env)
    ensures !env.userLibcdsAtomic && UseLibcdsAtomic(env) ==> env.libcpp && !env.useBoostAtomic
    ensures !env.userLibcdsAtomic && env.libcpp && !env.useBoostAtomic ==> (UseLibcdsAtomic(env) <==> Version(env) < 30700)
  {
  }

  /** Among supported two-digit versions, this header itself takes the libcds atomic fallback only on 3.6.x. */
  lemma LibcdsAtomicOnly36(env: BuildEnv)
    requires TwoDigit(env.clang) && Supported(Version(env))
    ensures UseLibcdsAtomic(env)
        <==> env.userLibcdsAtomic || (env.libcpp && !env.useBoostAtomic && env.clang.major == 3 && env.clang.minor == 6)
  {
    var t := env.clang;
    EncodeOrder(t, Triple(3, 7, 0));
    EncodeOrder(t, Minimum);
  }

  /** `thread_local` is withheld exactly for OS X below 3.6.0. */
  lemma ThreadLocalDenylist(env: BuildEnv)
    ensures !ThreadLocalSupport(env) <==> OsTypeOf(env) == Some(OSX) && Version(env) < 30600
  {
  }

  /** The OS X denial never survives the gate: every supported version has `thread_local`. */
  lemma ThreadLocalAfterGate(env: BuildEnv)
    requires Supported(Version(env))
    ensures ThreadLocalSupport(env)
  {
  }

  /** Each sanitizer flag is set by the user's predefinition or by the compiler's detection, independently of the other. */
  lemma SanitizersIndependent(env: BuildEnv, t: bool, a: bool)
    ensures ThreadSanitizer(env.(featureAddressSanitizer := a, userAddressSanitizer := a)) == ThreadSanitizer(env)
    ensures AddressSanitizer(env.(featureThreadSanitizer := t, userThreadSanitizer := t)) == AddressSanitizer(env)
    ensures env.userThreadSanitizer ==> ThreadSanitizer(env)
    ensures env.userAddressSanitizer ==> AddressSanitizer(env)
    ensures env.hasFeatureMacro ==> (env.featureThreadSanitizer ==> ThreadSanitizer(env)) && (env.featureAddressSanitizer ==> AddressSanitizer(env))
    ensures !env.hasFeatureMacro ==> (ThreadSanitizer(env) == env.userThreadSanitizer && AddressSanitizer(env) == env.userAddressSanitizer)
  {
  }

  /** Exceptions count as enabled only for `__EXCEPTIONS == 1`: absent or any other value disables them. */
  lemma ExceptionsExactlyOne(env: BuildEnv, v: int)
    ensures ExceptionsEnabled(env) ==> env.exceptionsMacro.Some? && env.exceptionsMacro.value == 1
    ensures ExceptionsEnabled(env.(exceptionsMacro := Some(v))) <==> v == 1
    ensures !ExceptionsEnabled(env.(exceptionsMacro := None))
  {
  }

  /** Double-width CAS is supported exactly with libc++, no opt-out for the current width and the matching primitive. */
  lemma DcasCharacterization(env: BuildEnv)
    ensures DcasSupport(env) <==> env.libcpp && !WideAtomicOptOut(env) && WideCasPrimitive(env)
  {
  }

  /** Without libc++ there is never double-width CAS support. */
  lemma DcasNeedsLibcpp(env: BuildEnv)
    requires !env.libcpp
    ensures !DcasSupport(env)
  {
  }

  /** The opt-out for the current width always wins, whatever else the environment provides. */
  lemma DcasOptOutDominates(env: BuildEnv)
    requires WideAtomicOptOut(env)
    ensures !DcasSupport(env)
    ensures !DcasSupport(env.(libcpp := true, haveCas16 := true, haveCas8 := true))
  {
  }

  /** The opt-out and the primitive for the other width have no effect. */
  lemma DcasOtherWidthIrrelevant(env: BuildEnv, optOut: bool, cas: bool)
    ensures Is64Bit(env) ==> DcasSupport(env.(disable64BitAtomic := optOut, haveCas8 := cas)) == DcasSupport(env)
    ensures !Is64Bit(env) ==> DcasSupport(env.(disable128BitAtomic := optOut, haveCas16 := cas)) == DcasSupport(env)
  {
  }
}
