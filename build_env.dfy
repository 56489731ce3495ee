/**
  The build-environment facts the libcds Clang configuration header reads.

  Each field stands for a predefined or command-line macro: a `bool` says
  whether the macro is defined, an `Option` carries the value of a macro that
  may be absent. `gccOsInterface`, `gccOsType` and `buildBits` are what the
  shared GCC-family header `cds/compiler/gcc/compiler_macro.h` derives; that
  header is not part of this model, so its results are taken as given.
*/
module BuildEnvironment {
  import opened Wrappers
  import opened ClangVersion

  /** `CDS_OSI_*`: the family of operating-system interfaces. */
  datatype OsInterface = Windows | Unix

  /** `CDS_OS_*`: the specific operating system. */
  datatype OsType = Win32 | Win64 | OSX | OtherOs

  datatype BuildEnv = BuildEnv(
    clang: Triple,                    // __clang_major__, __clang_minor__, __clang_patchlevel__
    clangVersionString: string,       // __clang_version__
    libcpp: bool,                     // _LIBCPP_VERSION defined
    useBoostAtomic: bool,             // CDS_USE_BOOST_ATOMIC defined
    userLibcdsAtomic: bool,           // CDS_USE_LIBCDS_ATOMIC predefined
    mscVer: bool,                     // _MSC_VER defined
    win64: bool,                      // _WIN64 defined
    win32: bool,                      // _WIN32 defined
    gccOsInterface: Option<OsInterface>, // CDS_OS_INTERFACE from compiler_macro.h
    gccOsType: Option<OsType>,        // CDS_OS_TYPE from compiler_macro.h
    buildBits: int,                   // CDS_BUILD_BITS (0 when undefined)
    cplusplus: int,                   // __cplusplus
    hasFeatureMacro: bool,            // __has_feature defined
    featureThreadSanitizer: bool,     // __has_feature(thread_sanitizer)
    featureAddressSanitizer: bool,    // __has_feature(address_sanitizer)
    userThreadSanitizer: bool,        // CDS_THREAD_SANITIZER_ENABLED predefined
    userAddressSanitizer: bool,       // CDS_ADDRESS_SANITIZER_ENABLED predefined
    exceptionsMacro: Option<int>,     // __EXCEPTIONS and its value
    disable128BitAtomic: bool,        // CDS_DISABLE_128BIT_ATOMIC defined
    disable64BitAtomic: bool,         // CDS_DISABLE_64BIT_ATOMIC defined
    haveCas16: bool,                  // __GCC_HAVE_SYNC_COMPARE_AND_SWAP_16 defined
    haveCas8: bool                    // __GCC_HAVE_SYNC_COMPARE_AND_SWAP_8 defined
  )

  /** `CDS_COMPILER_VERSION` for this environment. */
  function Version(env: BuildEnv): nat {
    Encode(env.clang)
  }
}
