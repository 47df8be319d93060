/**
 * Choosing the vendor of the host (src/vendors.rs:48-59): the first
 * candidate of the target whose executable is found on the search path.
 */
module Resolver {
  import opened Outcomes
  import opened StrReplace
  import opened Catalog
  import opened Platforms

  /** The Debug rendering of a vendor: its variant name, capitalised. */
  function Name(v: Vendor): (name: string)
    ensures name != [] && 'A' <= name[0] <= 'Z'
  {
    match v
    case Apk => "Apk"
    case Apt => "Apt"
    case Brew => "Brew"
    case Cards => "Cards"
    case Choco => "Choco"
    case Dnf => "Dnf"
    case Emerge => "Emerge"
    case Eopkg => "Eopkg"
    case Flatpak => "Flatpak"
    case Guix => "Guix"
    case NixEnv => "NixEnv"
    case Opkg => "Opkg"
    case Pacman => "Pacman"
    case Pkg => "Pkg"
    case Pkgman => "Pkgman"
    case Ports => "Ports"
    case Scoop => "Scoop"
    case Slackpkg => "Slackpkg"
    case Snap => "Snap"
    case Urpm => "Urpm"
    case Termux => "Termux"
    case Winget => "Winget"
    case Xbps => "Xbps"
    case Yay => "Yay"
    case Yum => "Yum"
    case Zypper => "Zypper"
  }

  function Names(vs: seq<Vendor>): seq<string> {
    seq(|vs|, i requires 0 <= i < |vs| => Name(vs[i]))
  }

  /** The pieces one after the other with sep between neighbours, as Rust's join. */
  function Join(xs: seq<string>, sep: string): (r: string)
    ensures xs != [] ==> StartsWith(r, xs[0])
    decreases |xs|
  {
    if xs == [] then ""
    else if |xs| == 1 then xs[0]
    else xs[0] + sep + Join(xs[1..], sep)
  }

  const NoVendorPrefix := "no vendor installed, candidates are: "

  /**
   * The index of the first candidate whose executable (slot 0 of its row)
   * the probe reports installed, or |candidates| when there is none.
   */
  function FirstInstalled(candidates: seq<Vendor>, installed: string -> bool): (k: nat)
    ensures k <= |candidates|
    ensures forall j :: 0 <= j < k ==> !installed(Executable(candidates[j]))
    ensures k < |candidates| ==> installed(Executable(candidates[k]))
    decreases |candidates|
  {
    if candidates == [] then 0
    else if installed(Executable(candidates[0])) then 0
    else 1 + FirstInstalled(candidates[1..], installed)
  }

  /** Some candidate is installed exactly when FirstInstalled stops inside the list. */
  lemma FirstInstalledFindsAny(candidates: seq<Vendor>, installed: string -> bool)
    ensures FirstInstalled(candidates, installed) < |candidates|
        <==> exists v :: v in candidates && installed(Executable(v))
  {
    var k := FirstInstalled(candidates, installed);
    if v :| v in candidates && installed(Executable(v)) {
      var j :| 0 <= j < |candidates| && candidates[j] == v;
      assert k <= j;
    }
  }

  /**
   * The loop of Vendor::new over the candidates; installed(name) stands for
   * which::which(name) succeeding. The result is the first candidate whose
   * executable is installed, and when there is none the error lists every
   * candidate by name.
   */
  method Resolve(vendors: seq<Vendor>, installed: string -> bool) returns (r: Result<Vendor, string>)
    ensures var k := FirstInstalled(vendors, installed);
      && (k < |vendors| ==> r == Ok(vendors[k]))
      && (k == |vendors| ==> r == Err(NoVendorPrefix + Join(Names(vendors), ", ")))
  {
    for i := 0 to |vendors|
      invariant i <= FirstInstalled(vendors, installed)
    {
      var name := ProbedName(vendors[i]);
      if installed(name) {
        return Ok(vendors[i]);
      }
    }
    return Err(NoVendorPrefix + Join(Names(vendors), ", "));
  }

  /** Vendor::new on platform p: the resolution over that platform's candidate list. */
  method New(p: Platform, installed: string -> bool) returns (r: Result<Vendor, string>)
    ensures var k := FirstInstalled(Candidates(p), installed);
      && (k < |Candidates(p)| ==> r == Ok(Candidates(p)[k]) && PlatformOf(r.value) == Some(p))
      && (k == |Candidates(p)| ==> r == Err(NoVendorPrefix + Join(Names(Candidates(p)), ", ")))
  {
    r := Resolve(Candidates(p), installed);
    if r.Ok? {
      CandidatesServePlatform(p, r.value);
    }
  }

  /**
   * Vendor::new as the code is written: the resolution over the list
   * get_vendors builds, where most candidates ignore the platform.
   */
  method NewAsWritten(p: Platform, installed: string -> bool) returns (r: Result<Vendor, string>)
    ensures var k := FirstInstalled(CandidatesAsWritten(p), installed);
      && (k < |CandidatesAsWritten(p)| ==> r == Ok(CandidatesAsWritten(p)[k]))
      && (k == |CandidatesAsWritten(p)| ==> r == Err(NoVendorPrefix + Join(Names(CandidatesAsWritten(p)), ", ")))
  {
    r := Resolve(CandidatesAsWritten(p), installed);
  }

  /**
   * On a Linux host where only winget is installed, the code as written
   * resolves to Winget (the last candidate), while the per-platform list
   * finds no vendor.
   */
  lemma AsWrittenLinuxPicksWinget(installed: string -> bool)
    requires installed(Executable(Winget))
    requires forall v :: v != Winget ==> !installed(Executable(v))
    ensures FirstInstalled(CandidatesAsWritten(Linux), installed) == 18
    ensures CandidatesAsWritten(Linux)[18] == Winget
    ensures FirstInstalled(Candidates(Linux), installed) == |Candidates(Linux)|
  {
    var c := CandidatesAsWritten(Linux);
    var k := FirstInstalled(c, installed);
    AsWrittenLinuxEndsWithWinget();
    CandidatesServePlatform(Linux, Winget);
    FirstInstalledFindsAny(Candidates(Linux), installed);
  }

  /** What New returns on success is installed and serves the platform. */
  lemma ResolvedServesPlatform(p: Platform, installed: string -> bool)
    requires FirstInstalled(Candidates(p), installed) < |Candidates(p)|
    ensures var v := Candidates(p)[FirstInstalled(Candidates(p), installed)];
      installed(Executable(v)) && PlatformOf(v) == Some(p)
  {
    CandidatesServePlatform(p, Candidates(p)[FirstInstalled(Candidates(p), installed)]);
  }

  /** Slot 0 of the row the table lookup returns for v: the name handed to the probe. */
  method ProbedName(v: Vendor) returns (name: string)
    ensures name == Executable(v)
  {
    var data := Lookup(v);
    ExecutableIsSlotZero(v);
    name := data.slots[0];
  }

  /** An occurrence inside the right part of a concatenation is an occurrence in the whole. */
  lemma OccursInSuffix(pat: string, a: string, b: string)
    requires Occurs(pat, b)
    ensures Occurs(pat, a + b)
  {
    var i :| 0 <= i <= |b| && StartsWith(b[i..], pat);
    assert (a + b)[|a| + i..] == b[i..];
  }

  /** Every piece occurs in the joined text. */
  lemma {:induction false} JoinContains(xs: seq<string>, sep: string, k: nat)
    requires k < |xs|
    ensures Occurs(xs[k], Join(xs, sep))
    decreases |xs|
  {
    if |xs| == 1 {
      assert Join(xs, sep)[0..] == xs[k];
    } else if k == 0 {
      assert Join(xs, sep)[0..][..|xs[0]|] == xs[0];
    } else {
      JoinContains(xs[1..], sep, k - 1);
      OccursInSuffix(xs[k], xs[0] + sep, Join(xs[1..], sep));
    }
  }

  /**
   * The error message names every candidate probed, whichever list is
   * probed: the one New uses or the one NewAsWritten uses.
   */
  lemma MessageNamesEveryCandidate(vs: seq<Vendor>, v: Vendor)
    requires v in vs
    ensures Occurs(Name(v), NoVendorPrefix + Join(Names(vs), ", "))
  {
    var k :| 0 <= k < |vs| && vs[k] == v;
    JoinContains(Names(vs), ", ", k);
    OccursInSuffix(Name(v), NoVendorPrefix, Join(Names(vs), ", "));
  }

  /**
   * As written, a macOS host with both nix-env and Homebrew resolves to a
   * Linux vendor among the first nine, never to Homebrew; with the list
   * guarded per platform it resolves to Homebrew.
   */
  lemma AsWrittenMacOSSkipsBrew(installed: string -> bool)
    requires installed(Executable(NixEnv)) && installed(Executable(Brew))
    ensures FirstInstalled(CandidatesAsWritten(MacOS), installed) <= 8
    ensures CandidatesAsWritten(MacOS)[FirstInstalled(CandidatesAsWritten(MacOS), installed)] != Brew
    ensures Candidates(MacOS)[FirstInstalled(Candidates(MacOS), installed)] == Brew
  {
    var c := CandidatesAsWritten(MacOS);
    var k := FirstInstalled(c, installed);
    AsWrittenMacOSOrder();
    assert c[k] in c[..9];
  }
}
