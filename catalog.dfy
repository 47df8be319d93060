/**
 * The vendor catalog: one row per package manager, giving the executable
 * probed on the host, the text of its auto-confirm flag and eight command
 * templates (src/vendors.rs:5-33, 121-448).
 */
module Catalog {

  /** The package managers known to the front-end, in declaration order. */
  datatype Vendor =
    | Apk | Apt | Brew | Cards | Choco | Dnf | Emerge | Eopkg | Flatpak | Guix
    | NixEnv | Opkg | Pacman | Pkg | Pkgman | Ports | Scoop | Slackpkg | Snap
    | Urpm | Termux | Winget | Xbps | Yay | Yum | Zypper

  /**
   * A catalog row: the vendor it is tagged with and ten text slots.
   * Slot 0 is the executable, slot 1 the auto-confirm flag, slots 2-9 the
   * templates for install, remove, upgrade, search, info, update,
   * upgrade-all and list.
   */
  datatype VendorData = VendorData(vendor: Vendor, slots: seq<string>)

  /** The number of slots in every row. */
  const SlotCount: nat := 10

  /**
   * The template slots the table leaves empty, meaning that the vendor
   * does not support that action: update for Choco, Flatpak, Snap and
   * Winget, info for Pkgman.
   */
  predicate Unsupported(v: Vendor, k: nat) {
    || (v == Choco && k == 7)
    || (v == Flatpak && k == 7)
    || (v == Pkgman && k == 6)
    || (v == Snap && k == 7)
    || (v == Winget && k == 7)
  }

  /**
   * Template slot k of d is empty exactly when the vendor does not support
   * that action; otherwise it does not start with '$'.
   */
  predicate TemplateSlot(d: VendorData, k: nat)
    requires k < |d.slots|
  {
    if Unsupported(d.vendor, k) then d.slots[k] == [] else d.slots[k] != [] && d.slots[k][0] != '$'
  }

  /**
   * What every row of the table satisfies: ten slots, a non-empty
   * executable name, an auto-confirm flag without a '$', and template slots
   * as TemplateSlot describes them.
   */
  predicate WellFormed(d: VendorData) {
    && |d.slots| == SlotCount
    && d.slots[0] != []
    && '$' !in d.slots[1]
    && forall k :: 2 <= k < |d.slots| ==> TemplateSlot(d, k)
  }

  /** The static table, in the source's row order. */
  const Vendors: seq<VendorData> := [
    ApkRow,
    AptRow,
    BrewRow,
    CardsRow,
    ChocoRow,
    DnfRow,
    EmergeRow,
    EopkgRow,
    FlatpakRow,
    GuixRow,
    NixEnvRow,
    OpkgRow,
    PacmanRow,
    PkgRow,
    PkgmanRow,
    PortsRow,
    ScoopRow,
    SlackpkgRow,
    SnapRow,
    TermuxRow,
    UrpmRow,
    WingetRow,
    XbpsRow,
    YayRow,
    YumRow,
    ZypperRow
  ]

  const ApkExe := "apk"
  const ApkRow := VendorData(Apk, [
    ApkExe,
    "",
    "apk add $args",
    "apk del $args",
    "apk upgrade $args",
    "apk search $args",
    "apk info $args",
    "apk update",
    "apk upgrade",
    "apk list --installed"
  ])

  const AptExe := "apt"
  const AptRow := VendorData(Apt, [
    AptExe,
    "--yes",
    "apt install $yes $args",
    "apt remove $yes $args",
    "apt install --only-upgrade $yes $args",
    "apt search $args",
    "apt show $args",
    "apt update $yes",
    "apt upgrade $yes",
    "apt list --installed"
  ])

  const BrewExe := "brew"
  const BrewRow := VendorData(Brew, [
    BrewExe,
    "",
    "brew install $args",
    "brew uninstall $args",
    "brew upgrade $args",
    "brew search $args",
    "brew info $args",
    "brew update",
    "brew upgrade",
    "brew list"
  ])

  const CardsExe := "cards"
  const CardsRow := VendorData(Cards, [
    CardsExe,
    "",
    "cards install $args",
    "cards remove $args",
    "cards install --upgrade $args",
    "cards search $args",
    "cards info $args",
    "cards sync",
    "cards upgrade",
    "cards list"
  ])

  const ChocoExe := "choco"
  const ChocoRow := VendorData(Choco, [
    ChocoExe,
    "--yes",
    "choco install $yes $args",
    "choco uninstall $yes $args",
    "choco upgrade $yes $args",
    "choco search $args",
    "choco info $args",
    "",
    "choco upgrade all $yes",
    "choco list"
  ])

  const DnfExe := "dnf"
  const DnfRow := VendorData(Dnf, [
    DnfExe,
    "--assumeyes",
    "dnf install $yes $args",
    "dnf remove $yes $args",
    "dnf upgrade $yes $args",
    "dnf search $args",
    "dnf info $args",
    "dnf check-update $yes",
    "dnf update $yes",
    "dnf list --installed"
  ])

  const EmergeExe := "emerge"
  const EmergeRow := VendorData(Emerge, [
    EmergeExe,
    "",
    "emerge $args",
    "emerge --depclean $args",
    "emerge --update $args",
    "emerge --search $args",
    "emerge --info $args",
    "emerge --sync",
    "emerge -vuDN @world",
    "qlist -Iv"
  ])

  const EopkgExe := "eopkg"
  const EopkgRow := VendorData(Eopkg, [
    EopkgExe,
    "--yes-all",
    "eopkg install $yes $args",
    "eopkg remove $yes $args",
    "eopkg upgrade $yes $args",
    "eopkg search $args",
    "eopkg info $args",
    "eopkg update-repo $yes",
    "eopkg upgrade $yes",
    "eopkg list-installed"
  ])

  const FlatpakExe := "flatpak"
  const FlatpakRow := VendorData(Flatpak, [
    FlatpakExe,
    "--assumeyes",
    "flatpak install $yes $args",
    "flatpak uninstall $yes $args",
    "flatpak update $yes $args",
    "flatpak search $args",
    "flatpak info $args",
    "",
    "flatpak update $yes",
    "flatpak list"
  ])

  const GuixExe := "guix"
  const GuixRow := VendorData(Guix, [
    GuixExe,
    "",
    "guix install $yes $args",
    "guix remove $yes $args",
    "guix upgrade $yes $args",
    "guix search $args",
    "guix show $args",
    "guix refresh $yes",
    "guix upgrade $yes",
    "guix package --list-installed"
  ])

  const NixEnvExe := "nix-env"
  const NixEnvRow := VendorData(NixEnv, [
    NixEnvExe,
    "",
    "nix-env --install $args",
    "nix-env --uninstall $args",
    "nix-env --upgrade $args",
    "nix-env -qaP $args",
    "nix-env -qa --description $args",
    "nix-channel --update",
    "nix-env --upgrade",
    "nix-env --query --installed"
  ])

  const OpkgExe := "opkg"
  const OpkgRow := VendorData(Opkg, [
    OpkgExe,
    "",
    "opkg install $args",
    "opkg remove $args",
    "opkg upgrade $args",
    "opkg find $args",
    "opkg info $args",
    "opkg update",
    "opkg upgrade",
    "opkg list-installed"
  ])

  const PacmanExe := "pacman"
  const PacmanRow := VendorData(Pacman, [
    PacmanExe,
    "--noconfirm",
    "pacman -S $yes $args",
    "pacman -Rs $yes $args",
    "pacman -S $yes $args",
    "pacman -Ss $args",
    "pacman -Si $args",
    "pacman -Sy $yes",
    "pacman -Syu $yes",
    "pacman -Q"
  ])

  const PkgExe := "pkg"
  const PkgRow := VendorData(Pkg, [
    PkgExe,
    "--yes",
    "pkg install $yes $args",
    "pkg remove $yes $args",
    "pkg install $yes $args",
    "pkg search $args",
    "pkg info $args",
    "pkg update $yes",
    "pkg upgrade $yes",
    "pkg info --all"
  ])

  const PkgmanExe := "pkgman"
  const PkgmanRow := VendorData(Pkgman, [
    PkgmanExe,
    "-y",
    "pkgman install $yes $args",
    "pkgman uninstall $yes $args",
    "pkgman update $yes $args",
    "pkgman search $args",
    "",
    "pkgman refresh $yes",
    "pkgman update $yes",
    "pkgman search --installed-only --all"
  ])

  const PortsExe := "prt-get"
  const PortsRow := VendorData(Ports, [
    PortsExe,
    "",
    "prt-get install $args",
    "prt-get remove $args",
    "prt-get update $args",
    "prt-get search $args",
    "prt-get info $args",
    "ports -u",
    "prt-get sysup",
    "prt-get listinst"
  ])

  const ScoopExe := "scoop"
  const ScoopRow := VendorData(Scoop, [
    ScoopExe,
    "",
    "scoop install $args",
    "scoop uninstall $args",
    "scoop update $args",
    "scoop search $args",
    "scoop info $args",
    "scoop update",
    "scoop update *",
    "scoop list"
  ])

  const SlackpkgExe := "slackpkg"
  const SlackpkgRow := VendorData(Slackpkg, [
    SlackpkgExe,
    "",
    "slackpkg install $args",
    "slackpkg remove $args",
    "slackpkg upgrade $args",
    "slackpkg search $args",
    "slackpkg info $args",
    "slackpkg update",
    "slackpkg upgrade-all",
    "ls -1 /var/log/packages"
  ])

  const SnapExe := "snap"
  const SnapRow := VendorData(Snap, [
    SnapExe,
    "",
    "snap install --classic $args",
    "snap remove $args",
    "snap refresh $args",
    "snap find $args",
    "snap info $args",
    "",
    "snap refresh",
    "snap list"
  ])

  const TermuxExe := "termux"
  const TermuxRow := VendorData(Termux, [
    TermuxExe,
    "--yes",
    "pkg install $yes $args",
    "pkg uninstall $yes $args",
    "pkg install $yes $args",
    "pkg search $args",
    "pkg show $args",
    "pkg update $yes",
    "pkg upgrade $yes",
    "pkg list-installed"
  ])

  const UrpmExe := "urpm"
  const UrpmRow := VendorData(Urpm, [
    UrpmExe,
    "",
    "urpmi $args",
    "urpme $args",
    "urpmi $args",
    "urpmq --fuzzy $args",
    "urpmq -i $args",
    "urpmi.update -a",
    "urpmi --auto-update",
    "rpm --query --all"
  ])

  const WingetExe := "winget"
  const WingetRow := VendorData(Winget, [
    WingetExe,
    "",
    "winget install $args",
    "winget uninstall $args",
    "winget upgrade $args",
    "winget search $args",
    "winget show $args",
    "",
    "winget upgrade --all",
    "winget list"
  ])

  const XbpsExe := "xbps"
  const XbpsRow := VendorData(Xbps, [
    XbpsExe,
    "--yes",
    "xbps-install $yes $args",
    "xbps-remove $yes $args",
    "xbps-install --update $yes $args",
    "xbps-query -Rs $args",
    "xbps-query -RS $args",
    "xbps-install --sync $yes",
    "xbps-install --update $yes",
    "xbps-query --list-pkgs"
  ])

  const YayExe := "yay"
  const YayRow := VendorData(Yay, [
    YayExe,
    "--noconfirm",
    "yay --topdown --cleanafter -S $yes $args",
    "pacman -Rs $yes $",
    "yay --topdown --cleanafter -S $yes $args",
    "yay --topdown -Ss $args",
    "yay --topdown -Si $args",
    "yay --topdown -Sy $yes",
    "yay --topdown -Syu $yes",
    "pacman -Q"
  ])

  const YumExe := "yum"
  const YumRow := VendorData(Yum, [
    YumExe,
    "--assumeyes",
    "yum install $yes $args",
    "yum remove $yes $args",
    "yum update $yes $args",
    "yum search $args",
    "yum info $args",
    "yum check-update $yes",
    "yum update $yes",
    "yum list --installed"
  ])

  const ZypperExe := "zypper"
  const ZypperRow := VendorData(Zypper, [
    ZypperExe,
    "--no-confirm",
    "zypper install $yes $args",
    "zypper remove $yes $args",
    "zypper update $yes $args",
    "zypper search $args",
    "zypper info $args",
    "zypper refresh $yes",
    "zypper update $yes",
    "zypper search --installed-only"
  ])

  function Position(v: Vendor): nat {
    match v
    case Apk => 0
    case Apt => 1
    case Brew => 2
    case Cards => 3
    case Choco => 4
    case Dnf => 5
    case Emerge => 6
    case Eopkg => 7
    case Flatpak => 8
    case Guix => 9
    case NixEnv => 10
    case Opkg => 11
    case Pacman => 12
    case Pkg => 13
    case Pkgman => 14
    case Ports => 15
    case Scoop => 16
    case Slackpkg => 17
    case Snap => 18
    case Termux => 19
    case Urpm => 20
    case Winget => 21
    case Xbps => 22
    case Yay => 23
    case Yum => 24
    case Zypper => 25
  }

  /** The row the table holds for each vendor. */
  function RowOf(v: Vendor): VendorData {
    match v
    case Apk => ApkRow
    case Apt => AptRow
    case Brew => BrewRow
    case Cards => CardsRow
    case Choco => ChocoRow
    case Dnf => DnfRow
    case Emerge => EmergeRow
    case Eopkg => EopkgRow
    case Flatpak => FlatpakRow
    case Guix => GuixRow
    case NixEnv => NixEnvRow
    case Opkg => OpkgRow
    case Pacman => PacmanRow
    case Pkg => PkgRow
    case Pkgman => PkgmanRow
    case Ports => PortsRow
    case Scoop => ScoopRow
    case Slackpkg => SlackpkgRow
    case Snap => SnapRow
    case Urpm => UrpmRow
    case Termux => TermuxRow
    case Winget => WingetRow
    case Xbps => XbpsRow
    case Yay => YayRow
    case Yum => YumRow
    case Zypper => ZypperRow
  }

  /**
   * Every vendor tags the row at its position. The table facts are split
   * into pairs of rows (PlacesApkAndApt onwards) only to keep each proof
   * obligation small for the solver; each pair follows from the
   * definitions alone.
   */
  lemma RowAt(v: Vendor)
    ensures Position(v) < |Vendors|
    ensures Vendors[Position(v)] == RowOf(v)
    ensures RowOf(v).vendor == v
  {
    match v
    case Apk => PlacesApkAndApt();
    case Apt => PlacesApkAndApt();
    case Brew => PlacesBrewAndCards();
    case Cards => PlacesBrewAndCards();
    case Choco => PlacesChocoAndDnf();
    case Dnf => PlacesChocoAndDnf();
    case Emerge => PlacesEmergeAndEopkg();
    case Eopkg => PlacesEmergeAndEopkg();
    case Flatpak => PlacesFlatpakAndGuix();
    case Guix => PlacesFlatpakAndGuix();
    case NixEnv => PlacesNixEnvAndOpkg();
    case Opkg => PlacesNixEnvAndOpkg();
    case Pacman => PlacesPacmanAndPkg();
    case Pkg => PlacesPacmanAndPkg();
    case Pkgman => PlacesPkgmanAndPorts();
    case Ports => PlacesPkgmanAndPorts();
    case Scoop => PlacesScoopAndSlackpkg();
    case Slackpkg => PlacesScoopAndSlackpkg();
    case Snap => PlacesSnapAndTermux();
    case Urpm => PlacesUrpmAndWinget();
    case Termux => PlacesSnapAndTermux();
    case Winget => PlacesUrpmAndWinget();
    case Xbps => PlacesXbpsAndYay();
    case Yay => PlacesXbpsAndYay();
    case Yum => PlacesYumAndZypper();
    case Zypper => PlacesYumAndZypper();
  }

  /** The Apk and Apt rows sit at their positions. */
  lemma PlacesApkAndApt()
    ensures |Vendors| == 26
    ensures Vendors[0] == ApkRow && Vendors[1] == AptRow
  {
  }

  /** The Brew and Cards rows sit at their positions. */
  lemma PlacesBrewAndCards()
    ensures |Vendors| == 26
    ensures Vendors[2] == BrewRow && Vendors[3] == CardsRow
  {
  }

  /** The Choco and Dnf rows sit at their positions. */
  lemma PlacesChocoAndDnf()
    ensures |Vendors| == 26
    ensures Vendors[4] == ChocoRow && Vendors[5] == DnfRow
  {
  }

  /** The Emerge and Eopkg rows sit at their positions. */
  lemma PlacesEmergeAndEopkg()
    ensures |Vendors| == 26
    ensures Vendors[6] == EmergeRow && Vendors[7] == EopkgRow
  {
  }

  /** The Flatpak and Guix rows sit at their positions. */
  lemma PlacesFlatpakAndGuix()
    ensures |Vendors| == 26
    ensures Vendors[8] == FlatpakRow && Vendors[9] == GuixRow
  {
  }

  /** The NixEnv and Opkg rows sit at their positions. */
  lemma PlacesNixEnvAndOpkg()
    ensures |Vendors| == 26
    ensures Vendors[10] == NixEnvRow && Vendors[11] == OpkgRow
  {
  }

  /** The Pacman and Pkg rows sit at their positions. */
  lemma PlacesPacmanAndPkg()
    ensures |Vendors| == 26
    ensures Vendors[12] == PacmanRow && Vendors[13] == PkgRow
  {
  }

  /** The Pkgman and Ports rows sit at their positions. */
  lemma PlacesPkgmanAndPorts()
    ensures |Vendors| == 26
    ensures Vendors[14] == PkgmanRow && Vendors[15] == PortsRow
  {
  }

  /** The Scoop and Slackpkg rows sit at their positions. */
  lemma PlacesScoopAndSlackpkg()
    ensures |Vendors| == 26
    ensures Vendors[16] == ScoopRow && Vendors[17] == SlackpkgRow
  {
  }

  /** The Snap and Termux rows sit at their positions. */
  lemma PlacesSnapAndTermux()
    ensures |Vendors| == 26
    ensures Vendors[18] == SnapRow && Vendors[19] == TermuxRow
  {
  }

  /** The Urpm and Winget rows sit at their positions. */
  lemma PlacesUrpmAndWinget()
    ensures |Vendors| == 26
    ensures Vendors[20] == UrpmRow && Vendors[21] == WingetRow
  {
  }

  /** The Xbps and Yay rows sit at their positions. */
  lemma PlacesXbpsAndYay()
    ensures |Vendors| == 26
    ensures Vendors[22] == XbpsRow && Vendors[23] == YayRow
  {
  }

  /** The Yum and Zypper rows sit at their positions. */
  lemma PlacesYumAndZypper()
    ensures |Vendors| == 26
    ensures Vendors[24] == YumRow && Vendors[25] == ZypperRow
  {
  }

  /**
   * Every row of the table is well formed. As for RowAt, the rows are
   * checked in groups of three (RowsApkToBrew onwards) through RowIntro
   * only to keep each proof obligation small for the solver.
   */
  lemma RowWellFormed(v: Vendor)
    ensures WellFormed(RowOf(v))
  {
    match v
    case Apk => RowsApkToBrew();
    case Apt => RowsApkToBrew();
    case Brew => RowsApkToBrew();
    case Cards => RowsCardsToDnf();
    case Choco => RowsCardsToDnf();
    case Dnf => RowsCardsToDnf();
    case Emerge => RowsEmergeToFlatpak();
    case Eopkg => RowsEmergeToFlatpak();
    case Flatpak => RowsEmergeToFlatpak();
    case Guix => RowsGuixToOpkg();
    case NixEnv => RowsGuixToOpkg();
    case Opkg => RowsGuixToOpkg();
    case Pacman => RowsPacmanToPkgman();
    case Pkg => RowsPacmanToPkgman();
    case Pkgman => RowsPacmanToPkgman();
    case Ports => RowsPortsToSlackpkg();
    case Scoop => RowsPortsToSlackpkg();
    case Slackpkg => RowsPortsToSlackpkg();
    case Snap => RowsSnapToUrpm();
    case Urpm => RowsSnapToUrpm();
    case Termux => RowsSnapToUrpm();
    case Winget => RowsWingetToYay();
    case Xbps => RowsWingetToYay();
    case Yay => RowsWingetToYay();
    case Yum => RowsYumToZypper();
    case Zypper => RowsYumToZypper();
  }

  /** The Apk, Apt and Brew rows of the table are well formed. */
  lemma RowsApkToBrew()
    ensures WellFormed(ApkRow) && WellFormed(AptRow) && WellFormed(BrewRow)
  {
    RowIntro(ApkRow);
    RowIntro(AptRow);
    RowIntro(BrewRow);
  }

  /** The Cards, Choco and Dnf rows of the table are well formed. */
  lemma RowsCardsToDnf()
    ensures WellFormed(CardsRow) && WellFormed(ChocoRow) && WellFormed(DnfRow)
  {
    RowIntro(CardsRow);
    RowIntro(ChocoRow);
    RowIntro(DnfRow);
  }

  /** The Emerge, Eopkg and Flatpak rows of the table are well formed. */
  lemma RowsEmergeToFlatpak()
    ensures WellFormed(EmergeRow) && WellFormed(EopkgRow) && WellFormed(FlatpakRow)
  {
    RowIntro(EmergeRow);
    RowIntro(EopkgRow);
    RowIntro(FlatpakRow);
  }

  /** The Guix, NixEnv and Opkg rows of the table are well formed. */
  lemma RowsGuixToOpkg()
    ensures WellFormed(GuixRow) && WellFormed(NixEnvRow) && WellFormed(OpkgRow)
  {
    RowIntro(GuixRow);
    RowIntro(NixEnvRow);
    RowIntro(OpkgRow);
  }

  /** The Pacman, Pkg and Pkgman rows of the table are well formed. */
  lemma RowsPacmanToPkgman()
    ensures WellFormed(PacmanRow) && WellFormed(PkgRow) && WellFormed(PkgmanRow)
  {
    RowIntro(PacmanRow);
    RowIntro(PkgRow);
    RowIntro(PkgmanRow);
  }

  /** The Ports, Scoop and Slackpkg rows of the table are well formed. */
  lemma RowsPortsToSlackpkg()
    ensures WellFormed(PortsRow) && WellFormed(ScoopRow) && WellFormed(SlackpkgRow)
  {
    RowIntro(PortsRow);
    RowIntro(ScoopRow);
    RowIntro(SlackpkgRow);
  }

  /** The Snap, Termux and Urpm rows of the table are well formed. */
  lemma RowsSnapToUrpm()
    ensures WellFormed(SnapRow) && WellFormed(TermuxRow) && WellFormed(UrpmRow)
  {
    RowIntro(SnapRow);
    RowIntro(TermuxRow);
    RowIntro(UrpmRow);
  }

  /** The Winget, Xbps and Yay rows of the table are well formed. */
  lemma RowsWingetToYay()
    ensures WellFormed(WingetRow) && WellFormed(XbpsRow) && WellFormed(YayRow)
  {
    RowIntro(WingetRow);
    RowIntro(XbpsRow);
    RowIntro(YayRow);
  }

  /** The Yum and Zypper rows of the table are well formed. */
  lemma RowsYumToZypper()
    ensures WellFormed(YumRow) && WellFormed(ZypperRow)
  {
    RowIntro(YumRow);
    RowIntro(ZypperRow);
  }

  /** The row facts, slot by slot, so that each row is checked one slot at a time. */
  lemma RowIntro(d: VendorData)
    requires |d.slots| == SlotCount && d.slots[0] != [] && '$' !in d.slots[1]
    requires TemplateSlot(d, 2) && TemplateSlot(d, 3) && TemplateSlot(d, 4) && TemplateSlot(d, 5)
    requires TemplateSlot(d, 6) && TemplateSlot(d, 7) && TemplateSlot(d, 8) && TemplateSlot(d, 9)
    ensures WellFormed(d)
  {
  }

  /** The vendor tagging row i of Vendors. */
  function TagAt(i: nat): Vendor
    requires i < 26
  {
    if i == 0 then Apk
    else if i == 1 then Apt
    else if i == 2 then Brew
    else if i == 3 then Cards
    else if i == 4 then Choco
    else if i == 5 then Dnf
    else if i == 6 then Emerge
    else if i == 7 then Eopkg
    else if i == 8 then Flatpak
    else if i == 9 then Guix
    else if i == 10 then NixEnv
    else if i == 11 then Opkg
    else if i == 12 then Pacman
    else if i == 13 then Pkg
    else if i == 14 then Pkgman
    else if i == 15 then Ports
    else if i == 16 then Scoop
    else if i == 17 then Slackpkg
    else if i == 18 then Snap
    else if i == 19 then Termux
    else if i == 20 then Urpm
    else if i == 21 then Winget
    else if i == 22 then Xbps
    else if i == 23 then Yay
    else if i == 24 then Yum
    else Zypper
  }

  /** The vendor tagging row i is the vendor whose position is i. */
  lemma PositionOfRow(i: nat)
    requires i < |Vendors|
    ensures Position(Vendors[i].vendor) == i
  {
    PositionTagAt(i);
    RowAt(TagAt(i));
  }

  lemma PositionTagAt(i: nat)
    requires i < 26
    ensures Position(TagAt(i)) == i
  {
  }

  /** No two rows of the table carry the same tag. */
  lemma TagsUnique()
    ensures forall i, j :: 0 <= i < |Vendors| && 0 <= j < |Vendors| && Vendors[i].vendor == Vendors[j].vendor ==> i == j
  {
    forall i, j | 0 <= i < |Vendors| && 0 <= j < |Vendors| && Vendors[i].vendor == Vendors[j].vendor
      ensures i == j
    {
      PositionOfRow(i);
      PositionOfRow(j);
    }
  }

  /** Each vendor tags exactly one row of the table. */
  lemma ExactlyOneRow(v: Vendor)
    ensures exists i :: 0 <= i < |Vendors| && Vendors[i].vendor == v
    ensures forall i, j :: 0 <= i < |Vendors| && 0 <= j < |Vendors| && Vendors[i].vendor == v && Vendors[j].vendor == v ==> i == j
  {
    RowAt(v);
    TagsUnique();
  }

  /** The row the table holds for v: the one and only row tagged v. */
  function Profile(v: Vendor): (d: VendorData)
    ensures d.vendor == v && WellFormed(d)
    ensures forall i :: 0 <= i < |Vendors| && Vendors[i].vendor == v ==> Vendors[i] == d
  {
    RowAt(v);
    RowWellFormed(v);
    TagsUnique();
    Vendors[Position(v)]
  }

  /** The row for v is the row constant of that vendor. */
  lemma ProfileIsRow(v: Vendor)
    ensures Profile(v) == RowOf(v)
  {
    RowAt(v);
  }

  /** The executable probed on the host for v: slot 0 of its row. */
  function Executable(v: Vendor): (name: string)
    ensures name != []
  {
    match v
    case Apk => ApkExe
    case Apt => AptExe
    case Brew => BrewExe
    case Cards => CardsExe
    case Choco => ChocoExe
    case Dnf => DnfExe
    case Emerge => EmergeExe
    case Eopkg => EopkgExe
    case Flatpak => FlatpakExe
    case Guix => GuixExe
    case NixEnv => NixEnvExe
    case Opkg => OpkgExe
    case Pacman => PacmanExe
    case Pkg => PkgExe
    case Pkgman => PkgmanExe
    case Ports => PortsExe
    case Scoop => ScoopExe
    case Slackpkg => SlackpkgExe
    case Snap => SnapExe
    case Termux => TermuxExe
    case Urpm => UrpmExe
    case Winget => WingetExe
    case Xbps => XbpsExe
    case Yay => YayExe
    case Yum => YumExe
    case Zypper => ZypperExe
  }

  /** Executable names slot 0 of the vendor's row in the table. */
  lemma ExecutableIsSlotZero(v: Vendor)
    ensures Profile(v).slots[0] == Executable(v)
  {
    ProfileIsRow(v);
  }

  /**
   * Linear search of the table for the row tagged `value`. The panic after
   * the loop cannot be reached, because every vendor tags a row.
   */
  method Lookup(value: Vendor) returns (d: VendorData)
    ensures d == Profile(value)
    ensures d.vendor == value && WellFormed(d)
  {
    RowAt(value);
    for i := 0 to |Vendors|
      invariant i <= Position(value)
    {
      var row := Vendors[i];
      if row.vendor == value {
        ProfileAt(i);
        return row;
      }
    }
    assert false;
  }

  /** Every row of the table is the profile of the vendor it is tagged with. */
  lemma ProfileAt(i: nat)
    requires i < |Vendors|
    ensures Profile(Vendors[i].vendor) == Vendors[i]
  {
  }

}
