/**
  The whole libcds Clang configuration as one resolution pass: from the build
  environment to either the gate failure or the complete set of definitions
  the rest of the library reads.
*/
module ClangDefs {
  import opened Wrappers
  import opened ClangVersion
  import opened BuildEnvironment
  import opened Platform
  import opened Features
  import opened Exports

  /** The only fatal outcome: the compiler is older than the minimum it names. */
  datatype GateError = UnsupportedCompiler(minimum: Triple)

  /** Everything the header defines once the gate passes. */
  datatype Config = Config(
    version: nat,                     // CDS_COMPILER_VERSION
    name: string,                     // CDS_COMPILER__NAME
    nick: string,                     // CDS_COMPILER__NICK
    useLibcdsAtomic: bool,            // CDS_USE_LIBCDS_ATOMIC, predefined or defined here
    osInterface: Option<OsInterface>, // CDS_OS_INTERFACE
    osType: Option<OsType>,           // CDS_OS_TYPE
    threadLocal: bool,                // CDS_CXX11_THREAD_LOCAL_SUPPORT
    sfinae: bool,                     // CDS_CXX11_SFINAE
    inheritingCtor: bool,             // CDS_CXX11_INHERITING_CTOR
    deprecation: DeprecationForm,     // spelling of CDS_DEPRECATED
    tsan: bool,                       // CDS_THREAD_SANITIZER_ENABLED
    asan: bool,                       // CDS_ADDRESS_SANITIZER_ENABLED
    exceptions: bool,                 // CDS_EXCEPTION_ENABLED
    dcas: bool                        // CDS_DCAS_SUPPORT
  )

  /** Runs the header over a build environment. */
  function Resolve(env: BuildEnv): (r: Result<Config, GateError>)
    ensures r.Failure? <==> Version(env) < 30600
    ensures r.Failure? ==> r.error.minimum == Triple(3, 6, 0)
    ensures r.Success? ==> r.value.version == Version(env) && r.value.version >= 30600
    ensures r.Success? ==> r.value.threadLocal && r.value.sfinae && r.value.inheritingCtor
    ensures r.Success? ==> r.value.name == DisplayName(env.clangVersionString) && r.value.nick == Nick
    ensures r.Success? ==> r.value.useLibcdsAtomic == UseLibcdsAtomic(env)
    ensures r.Success? ==> r.value.osInterface == OsInterfaceOf(env) && r.value.osType == OsTypeOf(env)
    ensures r.Success? ==> r.value.deprecation == DeprecationFormFor(r.value.version, env.cplusplus)
    ensures r.Success? ==> r.value.tsan == ThreadSanitizer(env) && r.value.asan == AddressSanitizer(env)
    ensures r.Success? ==> r.value.exceptions == ExceptionsEnabled(env) && r.value.dcas == DcasSupport(env)
  {
    var version := Version(env);
    if !Supported(version) then Failure(UnsupportedCompiler(Minimum))
    else Success(Config(
      version := version,
      name := DisplayName(env.clangVersionString),
      nick := Nick,
      useLibcdsAtomic := UseLibcdsAtomic(env),
      osInterface := OsInterfaceOf(env),
      osType := OsTypeOf(env),
      threadLocal := ThreadLocalSupport(env),
      sfinae := true,
      inheritingCtor := true,
      deprecation := DeprecationFormFor(version, env.cplusplus),
      tsan := ThreadSanitizer(env),
      asan := AddressSanitizer(env),
      exceptions := ExceptionsEnabled(env),
      dcas := DcasSupport(env)))
  }

  /** Resolution fails exactly for two-digit versions older than 3.6.0; 3.6.0 passes and 3.5.9 fails. */
  lemma ResolveGate(env: BuildEnv)
    requires TwoDigit(env.clang)
    ensures Resolve(env).Failure? <==> Before(env.clang, Triple(3, 6, 0))
    ensures env.clang == Triple(3, 6, 0) ==> Resolve(env).Success?
    ensures env.clang == Triple(3, 5, 9) ==> Resolve(env).Failure?
  {
    GateBoundary(env.clang);
  }

  /**
    Once the gate passes, libcds atomics are used when the user predefines them,
    and otherwise only on 3.6.x with libc++ and without Boost atomics.
  */
  lemma ResolvedLibcdsAtomic(env: BuildEnv)
    requires TwoDigit(env.clang) && Resolve(env).Success?
    ensures Resolve(env).value.useLibcdsAtomic
        <==> env.userLibcdsAtomic || (env.libcpp && !env.useBoostAtomic && env.clang.major == 3 && env.clang.minor == 6)
  {
    LibcdsAtomicOnly36(env);
  }

  /** Every resolved configuration has `thread_local`, on OS X too. */
  lemma ResolvedThreadLocalOnOsx(env: BuildEnv)
    requires Resolve(env).Success? && Resolve(env).value.osType == Some(OSX)
    ensures Resolve(env).value.threadLocal
    ensures !ThreadLocalSupport(env.(clang := Triple(3, 5, 9)))
  {
  }

  /** After the gate the pre-3.4 branch is dead: the spelling is decided by `__cplusplus` alone. */
  lemma ResolvedDeprecation(env: BuildEnv)
    requires Resolve(env).Success?
    ensures Resolve(env).value.deprecation == GnuAttribute <==> env.cplusplus < 201103
    ensures Resolve(env).value.deprecation == GnuScopedAttribute <==> env.cplusplus == 201103
    ensures Resolve(env).value.deprecation == StandardAttribute <==> env.cplusplus > 201103
  {
    DeprecationThreeWay(Version(env), env.cplusplus);
  }

  /** A resolved configuration never reports double-width CAS against the opt-out for its width. */
  lemma ResolvedDcasOptOut(env: BuildEnv)
    requires Resolve(env).Success? && WideAtomicOptOut(env)
    ensures !Resolve(env).value.dcas
  {
    DcasOptOutDominates(env);
  }
}
