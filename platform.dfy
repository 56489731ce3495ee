/**
  Platform resolution of the libcds Clang configuration: Clang targeting the
  Windows ABI (`_MSC_VER` defined) fixes the OS interface and, from `_WIN64`
  or `_WIN32`, the OS type; otherwise the GCC-family header decides.
*/
module Platform {
  import opened Wrappers
  import opened BuildEnvironment

  /** `CDS_OS_INTERFACE`. */
  function OsInterfaceOf(env: BuildEnv): (osi: Option<OsInterface>)
    ensures env.mscVer ==> osi == Some(Windows)
    ensures !env.mscVer ==> osi == env.gccOsInterface
  {
    if env.mscVer then Some(Windows) else env.gccOsInterface
  }

  /** `CDS_OS_TYPE`: this header's Windows choice when it makes one, else the GCC-family header's. */
  function OsTypeOf(env: BuildEnv): (os: Option<OsType>)
    ensures os == env.gccOsType || (env.mscVer && os in {Some(Win64), Some(Win32)})
    ensures env.mscVer && env.win64 ==> os == Some(Win64)
  {
    if env.mscVer && env.win64 then Some(Win64)
    else if env.mscVer && env.win32 then Some(Win32)
    else env.gccOsType
  }

  /** Clang for Windows always reports the Windows interface, and a Windows OS type whenever it sets one. */
  lemma MscVerMeansWindows(env: BuildEnv)
    requires env.mscVer
    ensures OsInterfaceOf(env) == Some(Windows)
    ensures OsTypeOf(env) != env.gccOsType ==> OsTypeOf(env) in {Some(Win64), Some(Win32)}
  {
  }

  /** With `_MSC_VER`, `_WIN64` wins over `_WIN32`, whether or not `_WIN32` is also defined. */
  lemma Win64TakesPrecedence(env: BuildEnv)
    requires env.mscVer && env.win64
    ensures OsTypeOf(env) == Some(Win64)
    ensures OsTypeOf(env.(win32 := !env.win32)) == OsTypeOf(env)
  {
  }

  /** With `_MSC_VER` and `_WIN32` alone, the OS type is Win32. */
  lemma Win32WithoutWin64(env: BuildEnv)
    requires env.mscVer && !env.win64 && env.win32
    ensures OsTypeOf(env) == Some(Win32)
  {
  }

  /** This header sets no OS type when `_MSC_VER` is absent or neither `_WIN64` nor `_WIN32` is defined. */
  lemma OsTypeLeftToGccHeader(env: BuildEnv)
    ensures OsTypeOf(env) != env.gccOsType ==> env.mscVer && (env.win64 || env.win32)
    ensures !env.mscVer || (!env.win64 && !env.win32) ==> OsTypeOf(env) == env.gccOsType
  {
  }

  /** The Windows markers `_WIN64` and `_WIN32` have no effect without `_MSC_VER`. */
  lemma WindowsMarkersNeedMscVer(env: BuildEnv, w64: bool, w32: bool)
    requires !env.mscVer
    ensures OsTypeOf(env.(win64 := w64, win32 := w32)) == OsTypeOf(env)
    ensures OsInterfaceOf(env.(win64 := w64, win32 := w32)) == OsInterfaceOf(env)
  {
  }
}
