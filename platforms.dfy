/**
 * The candidate vendors probed on each target operating system, in order
 * (src/vendors.rs:106-119).
 */
module Platforms {
  import opened Outcomes
  import opened Catalog

  /** The target operating system; OtherOs is any target the list does not name. */
  datatype Platform = Android | Haiku | Linux | MacOS | Windows | OtherOs

  /**
   * The list get_vendors builds as the code is written. An attribute such
   * as #[cfg(target_os = "linux")] guards only the one element right after
   * it, so only Termux, Pkgman, Apt, Brew and Scoop depend on the target;
   * every other listed vendor is a candidate on every target.
   */
  function CandidatesAsWritten(p: Platform): seq<Vendor> {
    Leading(p) + Unguarded + Trailing(p)
  }

  /** The guarded elements before the unguarded run: Termux, Pkgman, Apt. */
  function Leading(p: Platform): seq<Vendor> {
    match p
    case Android => [Termux]
    case Haiku => [Pkgman]
    case Linux => [Apt]
    case _ => []
  }

  /** The elements from Dnf to Snap, none of which carries an attribute. */
  const Unguarded: seq<Vendor> := [Dnf, Yum, Yay, Pacman, Apk, Emerge, Slackpkg, Zypper, NixEnv, Xbps, Cards, Urpm, Eopkg, Flatpak, Snap]

  /** The elements after the run: Brew guarded by macOS, Ports, Scoop guarded by Windows, Choco, Winget. */
  function Trailing(p: Platform): seq<Vendor> {
    (if p == MacOS then [Brew] else []) + [Ports] + (if p == Windows then [Scoop] else []) + [Choco, Winget]
  }

  /**
   * The platform each vendor serves, following the grouping of the list's
   * lines; Guix, Opkg and Pkg have catalog rows but serve none.
   */
  function PlatformOf(v: Vendor): Option<Platform> {
    match v
    case Termux => Some(Android)
    case Pkgman => Some(Haiku)
    case Apt | Dnf | Yum | Yay | Pacman | Apk | Emerge | Slackpkg | Zypper
      | NixEnv | Xbps | Cards | Urpm | Eopkg | Flatpak | Snap => Some(Linux)
    case Brew | Ports => Some(MacOS)
    case Scoop | Choco | Winget => Some(Windows)
    case Guix | Opkg | Pkg => None
  }

  /** The candidate list with each line guarded by its platform, in the list's order. */
  function Candidates(p: Platform): seq<Vendor> {
    match p
    case Android => [Termux]
    case Haiku => [Pkgman]
    case Linux => [Apt, Dnf, Yum, Yay, Pacman, Apk, Emerge, Slackpkg, Zypper, NixEnv, Xbps, Cards, Urpm, Eopkg, Flatpak, Snap]
    case MacOS => [Brew, Ports]
    case Windows => [Scoop, Choco, Winget]
    case OtherOs => []
  }

  /** A vendor is a candidate on exactly the platform it serves. */
  lemma CandidatesServePlatform(p: Platform, v: Vendor)
    ensures v in Candidates(p) <==> PlatformOf(v) == Some(p)
  {
    match p {
      case Android =>
      case Haiku =>
      case Linux => LinuxCandidates(v);
      case MacOS =>
      case Windows =>
      case OtherOs =>
    }
  }

  /** The Linux line lists exactly the vendors that serve Linux. */
  lemma LinuxCandidates(v: Vendor)
    ensures v in Candidates(Linux) <==> PlatformOf(v) == Some(Linux)
  {
    match v {
      case Termux =>
      case Pkgman =>
      case Apt =>
      case Dnf =>
      case Yum =>
      case Yay =>
      case Pacman =>
      case Apk =>
      case Emerge =>
      case Slackpkg =>
      case Zypper =>
      case NixEnv =>
      case Xbps =>
      case Cards =>
      case Urpm =>
      case Eopkg =>
      case Flatpak =>
      case Snap =>
      case Brew =>
      case Ports =>
      case Scoop =>
      case Choco =>
      case Winget =>
      case Guix =>
      case Opkg =>
      case Pkg =>
    }
  }

  /** A vendor that serves no platform (Guix, Opkg, Pkg) is never probed, on either list. */
  lemma UnlistedVendors(p: Platform, v: Vendor)
    requires PlatformOf(v).None?
    ensures v !in Candidates(p) && v !in CandidatesAsWritten(p)
  {
    CandidatesServePlatform(p, v);
    AsWrittenMembership(p, v);
  }

  /** Membership in the as-written list splits over its three parts. */
  lemma AsWrittenMembership(p: Platform, v: Vendor)
    ensures v in CandidatesAsWritten(p) <==> v in Leading(p) || v in Unguarded || v in Trailing(p)
  {
  }

  /** The five vendors that carry a target attribute in the list. */
  predicate CarriesAttribute(v: Vendor) {
    v == Termux || v == Pkgman || v == Apt || v == Brew || v == Scoop
  }

  /**
   * As written, a vendor is probed on target p exactly when it serves some
   * platform and, if it carries an attribute, that platform is p.
   */
  lemma AsWrittenProbes(p: Platform, v: Vendor)
    ensures v in CandidatesAsWritten(p)
        <==> PlatformOf(v).Some? && (CarriesAttribute(v) ==> PlatformOf(v) == Some(p))
  {
    AsWrittenMembership(p, v);
    LeadingMembers(p, v);
    UnguardedMembers(v);
    TrailingMembers(p, v);
    if PlatformOf(v).Some? && !CarriesAttribute(v) {
      ServedWithoutAttribute(v);
    }
  }

  /** The leading part holds the one attribute-carrying vendor of Android, Haiku or Linux. */
  lemma LeadingMembers(p: Platform, v: Vendor)
    ensures v in Leading(p) <==> CarriesAttribute(v) && v != Brew && v != Scoop && PlatformOf(v) == Some(p)
  {
  }

  /** The unguarded run holds exactly the Linux vendors other than Apt. */
  lemma UnguardedMembers(v: Vendor)
    ensures v in Unguarded <==> PlatformOf(v) == Some(Linux) && v != Apt
  {
  }

  /** The trailing part holds Ports, Choco and Winget, and Brew or Scoop on their own target. */
  lemma TrailingMembers(p: Platform, v: Vendor)
    ensures v in Trailing(p)
        <==> (v == Ports || v == Choco || v == Winget
              || ((v == Brew || v == Scoop) && PlatformOf(v) == Some(p)))
  {
  }

  /** A served vendor without an attribute is a Linux vendor other than Apt, or Ports, Choco or Winget. */
  lemma ServedWithoutAttribute(v: Vendor)
    requires PlatformOf(v).Some? && !CarriesAttribute(v)
    ensures (PlatformOf(v) == Some(Linux) && v != Apt) || v == Ports || v == Choco || v == Winget
  {
  }

  /** As written, every element without an attribute is probed on every target. */
  lemma AsWrittenUnguardedEverywhere(p: Platform, v: Vendor)
    requires v in Unguarded || v in [Ports, Choco, Winget]
    ensures v in CandidatesAsWritten(p)
  {
    AsWrittenMembership(p, v);
  }

  /**
   * As written, the list differs from the per-platform one on every target:
   * dnf is probed on Windows, macOS, Android and Haiku, and winget on Linux.
   */
  lemma AsWrittenDiffers(p: Platform)
    ensures CandidatesAsWritten(p) != Candidates(p)
  {
    if p == Linux {
      AsWrittenUnguardedEverywhere(p, Winget);
      CandidatesServePlatform(p, Winget);
    } else {
      AsWrittenUnguardedEverywhere(p, Dnf);
      CandidatesServePlatform(p, Dnf);
    }
  }

  /** On Linux as written, winget is the last of 19 candidates and appears nowhere before. */
  lemma AsWrittenLinuxEndsWithWinget()
    ensures |CandidatesAsWritten(Linux)| == 19 && CandidatesAsWritten(Linux)[18] == Winget
    ensures Winget !in CandidatesAsWritten(Linux)[..18]
  {
    assert CandidatesAsWritten(Linux)[..18] == [Apt] + Unguarded + [Ports, Choco];
  }

  /**
   * On macOS as written, nix-env is the ninth candidate and Homebrew only
   * the sixteenth; Homebrew is not among the first nine.
   */
  lemma AsWrittenMacOSOrder()
    ensures |CandidatesAsWritten(MacOS)| == 19
    ensures CandidatesAsWritten(MacOS)[8] == NixEnv && CandidatesAsWritten(MacOS)[15] == Brew
    ensures Brew !in CandidatesAsWritten(MacOS)[..9]
  {
    assert CandidatesAsWritten(MacOS)[..9] == Unguarded[..9];
  }
}
