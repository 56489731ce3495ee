# libcds Clang configuration, modelled in Dafny

libcds (a library of concurrent data structures) selects compiler-specific
definitions through one configuration header per compiler family. This project
models the Clang header, `dep/cds/cds/compiler/clang/defs.h`. The header runs
once per build and does the following:

- It folds `__clang_major__`, `__clang_minor__` and `__clang_patchlevel__` into
  `CDS_COMPILER_VERSION = major * 10000 + minor * 100 + patch`.
- It stops the build for any Clang older than 3.6.0. This version gate is the
  header's only fatal outcome.
- It falls back to libcds's own atomics (`CDS_USE_LIBCDS_ATOMIC`) when libc++
  is used without Boost atomics below Clang 3.7.
- It resolves the Windows OS interface and OS type when Clang targets the MSVC
  ABI (`_MSC_VER` defined).
- It defines the capability flags: `thread_local`, SFINAE, inheriting
  constructors, thread and address sanitizers, exceptions, and double-width
  compare-and-swap (`CDS_DCAS_SUPPORT`).
- It exports the `CDS_DEPRECATED`, `cds_likely`/`cds_unlikely` and alignment
  macros.

Preprocessor conditionals become total functions over a `BuildEnv` record.
Each field of that record stands for one macro: whether it is defined, or its
value. `ClangDefs.Resolve` returns either the gate failure or a `Config` record
holding every definition.

Modules:

- `Wrappers` (`wrappers.dfy`): `Option` and `Result`.
- `ClangVersion` (`clang_version.dfy`): the version encoding, its inverse, the
  name and nickname, and the gate.
- `BuildEnvironment` (`build_env.dfy`): the input record and the OS enumerations.
- `Platform` (`platform.dfy`): `CDS_OS_INTERFACE` and `CDS_OS_TYPE`.
- `Features` (`features.dfy`): the capability flags.
- `Exports` (`exports.dfy`): `CDS_DEPRECATED` as the token text it expands to,
  the branch hints and the alignment macros.
- `ClangDefs` (`clang_defs.dfy`): the whole resolution pass, plus lemmas about
  resolved configurations.

The three spellings of `CDS_DEPRECATED` are:

- the GNU attribute `__attribute__((deprecated(reason)))`;
- the GNU-scoped C++11 attribute `[[gnu::deprecated(reason)]]`, chosen when
  `__cplusplus == 201103` (ISO/IEC 14882:2011);
- the standard attribute `[[deprecated(reason)]]` (section 7.6.5 of
  ISO/IEC 14882:2014).

Inputs that come from the GCC-family header `cds/compiler/gcc/compiler_macro.h`
are plain fields of `BuildEnv`. These are `CDS_BUILD_BITS`, plus the OS
interface and OS type for builds that are not MSVC-ABI Windows builds.
`compiler_macro.h` is not part of this model.

Two consequences of the code are worth stating:

- The OS X `thread_local` denial (line 78) uses the gate's own threshold,
  30600. It therefore never takes effect in a build that proceeds
  (`Features.ThreadLocalAfterGate`, `ClangDefs.ResolvedThreadLocalOnOsx`).
- The `#error` at line 42 names only the minimum, 3.6.0, so `GateError`
  carries only the minimum.

`CDS_USE_LIBCDS_ATOMIC` is defined at line 48 without an `#ifndef` guard, and
nothing undefines it. A build that predefines it (`-DCDS_USE_LIBCDS_ATOMIC`)
therefore keeps the libcds atomic emulation whatever lines 45-49 decide.
`BuildEnv.userLibcdsAtomic` is that predefinition. The sanitizer flags
likewise take the user's `CDS_THREAD_SANITIZER_ENABLED` and
`CDS_ADDRESS_SANITIZER_ENABLED` into account, which lines 110 and 116 test
explicitly.

## Model

| member | source | states |
|---|---|---|
| `ClangVersion.Encode` | dep/cds/cds/compiler/clang/defs.h:35 | `CDS_COMPILER_VERSION`; for two-digit minor and patch, decoding the result gives back the triple |
| `ClangVersion.Supported` | dep/cds/cds/compiler/clang/defs.h:41-43 | The gate: a version passes exactly when it is at least the encoding of 3.6.0 |
| `ClangVersion.DecodeEncode` | dep/cds/cds/compiler/clang/defs.h:35 | Splitting the encoded version back into digits returns the original triple whenever minor and patch are below 100 |
| `ClangVersion.EncodeDecode` | dep/cds/cds/compiler/clang/defs.h:35 | Every encoded value is the encoding of its decoded triple, so the two-digit triples and the encodings correspond one to one |
| `ClangVersion.EncodeInjective` | dep/cds/cds/compiler/clang/defs.h:35 | Two two-digit triples have the same `CDS_COMPILER_VERSION` if and only if they are equal |
| `ClangVersion.EncodeOrder` | dep/cds/cds/compiler/clang/defs.h:35 | For two-digit triples, one triple comes lexicographically before another if and only if its encoding is smaller |
| `ClangVersion.DisplayName` | dep/cds/cds/compiler/clang/defs.h:38-39 | `CDS_COMPILER__NAME` is the nickname "clang", a space, and then the compiler's version string unchanged |
| `ClangVersion.MinVersionIsMinimum` | dep/cds/cds/compiler/clang/defs.h:41-42 | The threshold 30600 is the encoding of 3.6.0, the version the diagnostic names |
| `ClangVersion.GateBoundary` | dep/cds/cds/compiler/clang/defs.h:41-43 | A two-digit version passes the gate if and only if it is not lexicographically before 3.6.0 |
| `ClangVersion.GateExamples` | dep/cds/cds/compiler/clang/defs.h:41-43 | 3.6.0 passes the gate and 3.5.9 does not |
| `Platform.OsInterfaceOf` | dep/cds/cds/compiler/clang/defs.h:52-53 | `CDS_OS_INTERFACE` is Windows with `_MSC_VER`, and otherwise the GCC-family header's value |
| `Platform.OsTypeOf` | dep/cds/cds/compiler/clang/defs.h:52-63 | `CDS_OS_TYPE` is the GCC-family header's value unless `_MSC_VER` is defined and the header picks Win64 or Win32; with `_WIN64` it is Win64 |
| `Platform.MscVerMeansWindows` | dep/cds/cds/compiler/clang/defs.h:52-63 | With `_MSC_VER` the OS interface is Windows, and any OS type this header sets is Win64 or Win32 |
| `Platform.Win64TakesPrecedence` | dep/cds/cds/compiler/clang/defs.h:54-57 | With `_MSC_VER` and `_WIN64` the OS type is Win64, whether or not `_WIN32` is defined |
| `Platform.Win32WithoutWin64` | dep/cds/cds/compiler/clang/defs.h:58-61 | With `_MSC_VER`, `_WIN32` and no `_WIN64`, the OS type is Win32 |
| `Platform.OsTypeLeftToGccHeader` | dep/cds/cds/compiler/clang/defs.h:52-63 | The OS type differs from the GCC-family header's only when `_MSC_VER` and one of `_WIN64`/`_WIN32` are defined; otherwise this header leaves it alone |
| `Platform.WindowsMarkersNeedMscVer` | dep/cds/cds/compiler/clang/defs.h:52-63 | Without `_MSC_VER`, `_WIN64` and `_WIN32` change neither the OS interface nor the OS type |
| `Features.UseLibcdsAtomic` | dep/cds/cds/compiler/clang/defs.h:45-49 | `CDS_USE_LIBCDS_ATOMIC` is always defined when the user predefines it; otherwise it is defined only with libc++ and without Boost atomics; with Boost atomics only the predefinition sets it |
| `Features.LibcdsAtomicCondition` | dep/cds/cds/compiler/clang/defs.h:45-49 | A predefinition always selects libcds atomics; without one, they are chosen only with libc++ and without Boost atomics, and in that setting exactly when the version is below 30700 |
| `Features.LibcdsAtomicOnly36` | dep/cds/cds/compiler/clang/defs.h:41-49 | For supported two-digit versions, libcds atomics are chosen if and only if the user predefines them, or libc++ is used without Boost atomics on a 3.6.x compiler |
| `Features.ThreadLocalSupport` | dep/cds/cds/compiler/clang/defs.h:78-84 | `CDS_CXX11_THREAD_LOCAL_SUPPORT` holds for every version that passes the gate, and is withheld only on OS X |
| `Features.ThreadLocalDenylist` | dep/cds/cds/compiler/clang/defs.h:77-84 | `thread_local` support is withheld if and only if the OS type is OS X and the version is below 30600 |
| `Features.ThreadLocalAfterGate` | dep/cds/cds/compiler/clang/defs.h:78-84 | Every version that passes the gate has `thread_local` support, so the OS X denial is unreachable |
| `Features.ThreadSanitizer` | dep/cds/cds/compiler/clang/defs.h:109-113 | `CDS_THREAD_SANITIZER_ENABLED` is set if and only if the user predefines it or `__has_feature` is available and reports `thread_sanitizer` |
| `Features.AddressSanitizer` | dep/cds/cds/compiler/clang/defs.h:115-119 | `CDS_ADDRESS_SANITIZER_ENABLED` is set if and only if the user predefines it or `__has_feature` is available and reports `address_sanitizer` |
| `Features.SanitizersIndependent` | dep/cds/cds/compiler/clang/defs.h:109-119 | Each sanitizer flag is unaffected by the other sanitizer's inputs; a user predefinition or a detection through `__has_feature` always sets it; without `__has_feature` only the predefinition counts |
| `Features.ExceptionsEnabled` | dep/cds/cds/compiler/clang/defs.h:137-139 | `CDS_EXCEPTION_ENABLED` is never set unless `__EXCEPTIONS` is defined |
| `Features.ExceptionsExactlyOne` | dep/cds/cds/compiler/clang/defs.h:137-139 | Exceptions are enabled if and only if `__EXCEPTIONS` is defined with value 1; an absent macro or any other value disables them |
| `Features.DcasSupport` | dep/cds/cds/compiler/clang/defs.h:146-156 | `CDS_DCAS_SUPPORT` is set only with libc++, no opt-out for the current width, and the CAS primitive of that width |
| `Features.DcasCharacterization` | dep/cds/cds/compiler/clang/defs.h:146-156 | Double-width CAS is supported if and only if libc++ is used, the current width has no opt-out, and the CAS primitive for that width exists (16 bytes on 64-bit, 8 bytes otherwise) |
| `Features.DcasNeedsLibcpp` | dep/cds/cds/compiler/clang/defs.h:146 | Without libc++ there is never double-width CAS support |
| `Features.DcasOptOutDominates` | dep/cds/cds/compiler/clang/defs.h:146-156 | The opt-out for the current width forces the flag false, even with libc++ and every CAS primitive present |
| `Features.DcasOtherWidthIrrelevant` | dep/cds/cds/compiler/clang/defs.h:147-155 | The opt-out and the CAS primitive of the other width never change the flag |
| `Exports.DeprecationFormFor` | dep/cds/cds/compiler/clang/defs.h:93-103 | The GNU attribute is used below Clang 3.4 or below C++11; the standard attribute is used only above C++11 |
| `Exports.Deprecated` | dep/cds/cds/compiler/clang/defs.h:95-102 | The expansion of `CDS_DEPRECATED(reason)` contains the reason verbatim, right after the spelling's opening tokens |
| `Exports.DeprecationBeforeScoped` | dep/cds/cds/compiler/clang/defs.h:101-103 | Below Clang 3.4 the GNU attribute is used whatever `__cplusplus` is |
| `Exports.DeprecationThreeWay` | dep/cds/cds/compiler/clang/defs.h:93-100 | From Clang 3.4 on: GNU attribute if and only if `__cplusplus < 201103`; GNU-scoped if and only if it equals 201103; standard `[[deprecated]]` if and only if it is greater |
| `Exports.ReasonPreserved` | dep/cds/cds/compiler/clang/defs.h:95-102 | Every spelling of `CDS_DEPRECATED(reason)` carries the reason verbatim: it reads back out unchanged |
| `Exports.ReasonOfOnlyExpansions` | dep/cds/cds/compiler/clang/defs.h:95-102 | Any text from which a reason can be read back is exactly the expansion of that reason, so reading back is the inverse of expansion |
| `Exports.DeprecatedInjective` | dep/cds/cds/compiler/clang/defs.h:93-103 | The three spellings are pairwise distinct, and an expansion determines both its spelling and its reason |
| `Exports.Likely` | dep/cds/cds/compiler/clang/defs.h:132 | `cds_likely(e)` yields 0 or 1, and is non-zero if and only if `e` is |
| `Exports.Unlikely` | dep/cds/cds/compiler/clang/defs.h:133 | `cds_unlikely(e)` yields 0 or 1, and is non-zero if and only if `e` is |
| `Exports.HintsAgree` | dep/cds/cds/compiler/clang/defs.h:132-133 | The two hints give the same value for every operand, and applying a hint to its own result changes nothing |
| `Exports.Alignment` | dep/cds/cds/compiler/clang/defs.h:125-127 | Each alignment macro yields an `aligned` attribute carrying exactly the requested alignment |
| `Exports.AlignmentSiteIndependent` | dep/cds/cds/compiler/clang/defs.h:125-127 | The type, class and data alignment macros all expand to the same `aligned(n)` attribute, carrying `n` |
| `ClangDefs.Resolve` | dep/cds/cds/compiler/clang/defs.h:35-156 | Resolution fails, naming 3.6.0, exactly when the encoded version is below 30600. A resolved configuration records that version and always has `thread_local`, full SFINAE and inheriting constructors. Every other field is the value its deciding function gives, so the properties proved of those functions hold for the configuration a caller reads: name and nickname, the libcds atomic fallback, the OS interface and type, the `CDS_DEPRECATED` spelling, both sanitizers, exceptions and double-width CAS |
| `ClangDefs.ResolveGate` | dep/cds/cds/compiler/clang/defs.h:41-43 | For two-digit versions, resolution fails if and only if the version is lexicographically before 3.6.0; 3.6.0 resolves and 3.5.9 fails |
| `ClangDefs.ResolvedLibcdsAtomic` | dep/cds/cds/compiler/clang/defs.h:41-49 | In a resolved configuration, libcds atomics are on if and only if the user predefines them, or libc++ is used without Boost atomics on a 3.6.x compiler |
| `ClangDefs.ResolvedThreadLocalOnOsx` | dep/cds/cds/compiler/clang/defs.h:78-84 | A resolved OS X configuration has `thread_local` support, although the same environment at 3.5.9 would be denied it |
| `ClangDefs.ResolvedDeprecation` | dep/cds/cds/compiler/clang/defs.h:93-100 | In a resolved configuration, the `CDS_DEPRECATED` spelling depends on `__cplusplus` alone, three ways; the pre-3.4 branch is dead |
| `ClangDefs.ResolvedDcasOptOut` | dep/cds/cds/compiler/clang/defs.h:146-156 | A resolved configuration never reports double-width CAS when the opt-out for its width is set |

## Left out

- `#include <cds/compiler/gcc/compiler_macro.h>` (line 65): this header is not
  part of this model. Its results `CDS_BUILD_BITS`, and the OS interface and
  type outside MSVC-ABI Windows, are inputs.
- `#include <cds/compiler/gcc/compiler_barriers.h>` (line 158): this header is
  not part of this model. It is included last, after every decision here, and
  nothing in this header reads from it.
- Command-line predefinitions are modelled for `CDS_USE_LIBCDS_ATOMIC` (no
  guard, line 48) and for the two sanitizer flags (guarded, lines 110 and
  116). `CDS_DCAS_SUPPORT`, `CDS_EXCEPTION_ENABLED` and
  `CDS_CXX11_THREAD_LOCAL_SUPPORT` report only this header's own definitions.
- An undefined `CDS_OS_TYPE` is treated as "not OS X" at line 78. The
  enumerations' numeric values are not modelled. This only matters below the
  gate.
- Pure token substitutions with no decision in them: `alignof`,
  `CDS_CXX11_INLINE_NAMESPACE_SUPPORT`, `CDS_CONSTEXPR`, `CDS_NOEXCEPT_SUPPORT`,
  `CDS_NOEXCEPT_SUPPORT_` (lines 67-75) and `CDS_NORETURN` (line 105).
- The Windows OS name and nickname strings (`CDS_OS__NAME`, `CDS_OS__NICK`,
  lines 56-61), and the text of the `#error` diagnostic. Only the outcome of the
  gate is modelled.
- What the emitted attributes mean to the compiler is compiler semantics, not
  decisions of this header. This covers alignment layout, and therefore whether
  requesting the same alignment twice adds a constraint. It also covers
  `noreturn` control flow, branch layout and deprecation warnings.
- `Exports.Likely`, `Exports.Unlikely`: operands are modelled as integers.
  Pointer and floating operands of `!!` are not modelled.
- The behaviour of atomic and CAS instructions, and the concurrent algorithms
  that read these flags. These involve hardware and concurrency semantics.
