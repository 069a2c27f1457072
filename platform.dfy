/**
 * The platform fingerprint sent in the `X-Stainless-OS` and
 * `X-Stainless-Arch` headers: `get_platform` and `get_architecture` as
 * classifiers of the strings the `platform` and `distro` packages report.
 */
module Platform {
  import opened Text

  datatype OperatingSystem =
    | MacOS | Linux | Windows | FreeBSD | OpenBSD | IOS | Android
    | OtherPlatform(name: string)
    | UnknownPlatform

  datatype Arch = X32 | X64 | ArmArch | Arm64 | OtherArch(name: string) | UnknownArch

  /**
   * `get_platform()`, given `platform.system()`, `platform.platform()` and
   * `distro.id()` (the latter consulted only on Linux).
   */
  function GetPlatform(systemRaw: string, platformRaw: string, distroId: string): (p: OperatingSystem)
    ensures var system, name := Lower(systemRaw), Lower(platformRaw);
      && (p == IOS <==> Contains(name, "iphone") || Contains(name, "ipad"))
      && (p == MacOS <==> !(p == IOS) && system == "darwin")
      && (p == Windows <==> !(p == IOS) && system == "windows")
      && (p == Android <==> !Contains(name, "iphone") && !Contains(name, "ipad")
                            && system != "darwin" && system != "windows" && Contains(name, "android"))
      && (p in {Linux, FreeBSD, OpenBSD} <==> p != IOS && p != Android && system == "linux")
      && (p == FreeBSD <==> p in {Linux, FreeBSD, OpenBSD} && distroId == "freebsd")
      && (p == OpenBSD <==> p in {Linux, FreeBSD, OpenBSD} && distroId == "openbsd")
      && (p.OtherPlatform? ==> p.name == name && name != "" && system !in {"darwin", "windows", "linux"})
      && (p == UnknownPlatform <==> name == "" && system !in {"darwin", "windows", "linux"})
  {
    var system := Lower(systemRaw);
    var name := Lower(platformRaw);
    if Contains(name, "iphone") || Contains(name, "ipad") then IOS
    else if system == "darwin" then MacOS
    else if system == "windows" then Windows
    else if Contains(name, "android") then Android
    else if system == "linux" then
      (if distroId == "freebsd" then FreeBSD
       else if distroId == "openbsd" then OpenBSD
       else Linux)
    else if name != "" then OtherPlatform(name)
    else UnknownPlatform
  }

  /** `get_architecture()`, given the bitness from `platform.architecture()` and `platform.machine()`. */
  function GetArchitecture(bitness: string, machineRaw: string): (a: Arch)
    ensures var machine := Lower(machineRaw);
      && (a == Arm64 <==> machine == "arm64" || machine == "aarch64")
      && (a == ArmArch <==> machine == "arm")
      && (a == X64 <==> machine == "x86_64")
      && (a == X32 <==> machine !in {"arm64", "aarch64", "arm", "x86_64"} && bitness == "32bit")
      && (a.OtherArch? <==> machine !in {"arm64", "aarch64", "arm", "x86_64"} && bitness != "32bit" && machine != "")
      && (a.OtherArch? ==> a.name == machine)
      && (a == UnknownArch <==> machine == "" && bitness != "32bit")
  {
    var machine := Lower(machineRaw);
    if machine in {"arm64", "aarch64"} then Arm64
    else if machine == "arm" then ArmArch
    else if machine == "x86_64" then X64
    else if bitness == "32bit" then X32
    else if machine != "" then OtherArch(machine)
    else UnknownArch
  }

  /** `str()` of a platform, the value of the `X-Stainless-OS` header. */
  function PlatformName(p: OperatingSystem): string
  {
    match p
    case MacOS => "MacOS"
    case Linux => "Linux"
    case Windows => "Windows"
    case FreeBSD => "FreeBSD"
    case OpenBSD => "OpenBSD"
    case IOS => "iOS"
    case Android => "Android"
    case OtherPlatform(name) => "Other:" + name
    case UnknownPlatform => "Unknown"
  }

  /** `str()` of an architecture, the value of the `X-Stainless-Arch` header. */
  function ArchName(a: Arch): string
  {
    match a
    case X32 => "x32"
    case X64 => "x64"
    case ArmArch => "arm"
    case Arm64 => "arm64"
    case OtherArch(name) => "other:" + name
    case UnknownArch => "unknown"
  }

  /** Distinct platforms are reported under distinct header values. */
  lemma PlatformNameInjective(p: OperatingSystem, q: OperatingSystem)
    ensures PlatformName(p) == PlatformName(q) ==> p == q
  {
    if p.OtherPlatform? {
      assert PlatformName(p)[1] == 't';
      assert p.name == PlatformName(p)[6..];
    }
    if q.OtherPlatform? {
      assert PlatformName(q)[1] == 't';
      assert q.name == PlatformName(q)[6..];
    }
  }

  /** Distinct architectures are reported under distinct header values. */
  lemma ArchNameInjective(a: Arch, b: Arch)
    ensures ArchName(a) == ArchName(b) ==> a == b
  {
    if a.OtherArch? {
      assert ArchName(a)[0] == 'o';
      assert a.name == ArchName(a)[6..];
    }
    if b.OtherArch? {
      assert ArchName(b)[0] == 'o';
      assert b.name == ArchName(b)[6..];
    }
  }
}
