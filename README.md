# please — vendor catalog, command formatting, resolution and dispatch

`please` (`pls`) is a command-line front-end that turns one generic package
action (install, remove, upgrade, search, info, update, upgrade-all, list)
into the shell command of the package manager ("vendor") found on the host.
This project models the core of that translation, `src/vendors.rs`, in Dafny:

- `outcomes.dfy` (`Outcomes`): `Option` and `Result`, standing in for Rust's
  `Option` and `eyre::Result`.
- `str_replace.dfy` (`StrReplace`): Rust's `str::replace` for a non-empty
  pattern: every leftmost, non-overlapping occurrence is replaced, scanning
  left to right. There are lemmas on when text is left alone, where the first
  match is cut, and how a prefix that cannot start a match is carried over.
- `catalog.dfy` (`Catalog`): the 26 vendors and the `VENDORS` table, copied
  verbatim. Each row has ten slots:
  - slot 0 is the executable probed on the host;
  - slot 1 is the auto-confirm flag;
  - slots 2-9 are the templates for the eight actions.

  An empty template means "unsupported". The `From<Vendor>` lookup is a
  method performing the same linear search. It is proved never to reach the
  source's `panic!`, because every vendor has exactly one row.
- `formatter.dfy` (`Formatter`): `PlsCommand::format`. It selects the
  template, replaces `$yes` by the flag or by nothing, then replaces `$args`
  by the arguments. A reference reading of templates as pieces (literal text,
  `$yes`, `$args`) proves that formatting is a plain substitution of the two
  placeholders. Worked examples for real rows are included, one of them
  Yay's remove template.
- `platforms.dfy` (`Platforms`): the candidate list `get_vendors` builds for
  each target operating system, both as written and as evidently intended
  (see Findings).
- `resolver.dfy` (`Resolver`): `Vendor::new`. It returns the first candidate
  whose executable the probe finds. Otherwise it returns the error
  `no vendor installed, candidates are: ` followed by the candidates' Debug
  names joined with `, `. The loop is `Resolve`, over any candidate list.
  `NewAsWritten` runs it over the list as the code builds it. `New` runs it
  over the corrected per-platform list from the Findings row;
  `ResolvedServesPlatform` describes what `New` returns, and
  `MessageNamesEveryCandidate` holds for both.
- `dispatcher.dfy` (`Dispatcher`): `Vendor::execute`, where `eprintln!` and
  spawning are recorded as effects:
  - an unsupported action prints a diagnostic and gives exit code 1;
  - a dry run prints the command and gives 0;
  - otherwise `sh -c` runs the command (`cmd /C` on Windows). A failure to
    start becomes the error, and a missing exit code becomes 0.

Choices made in the model:

- The host is passed in as parameters:
  - the target operating system (Rust's `cfg(target_os)`) is a `Platform`
    parameter;
  - `which::which` is an abstract predicate `installed: string -> bool` on
    executable names;
  - spawning a shell and waiting for it is an abstract function
    `run: ShellCall -> Status`.
- Each table row's executable is its own constant (`ApkExe`, …). The row and
  `Catalog.Executable` both use it, so the data is written once.

Quirks of the table are modelled as written:

- Yay's remove template is `pacman -Rs $yes $`. It drops the package
  arguments (`Formatter.YayRemoveDropsArgs`).
- Termux's executable is `termux`, Xbps's is `xbps` and Urpm's is `urpm`.
- Guix, Opkg and Pkg have rows, but no platform ever probes them
  (`Platforms.UnlistedVendors`).

`src/params.rs` declares command-line options for a configuration file
(`--config`, `--skip-config`), an explicit vendor (`--vendor`), running as
root (`--su`, not on Windows) and a pager for info, list and list-vendors.
Nothing in `src/vendors.rs` uses them: `Vendor::new` takes no argument,
`format` has no pager parameter and `execute` has no elevate flag. The
program's entry point, `src/bin/please.rs`, only parses and prints these
options.

## Model

| member | source | states |
|---|---|---|
| StrReplace.Replace | src/vendors.rs:97-98 | leftmost, non-overlapping, replace-all substitution for a non-empty pattern, pinned down by ReplaceAbsent and ReplaceFirstMatch; a replacement as long as the pattern keeps the text's length |
| StrReplace.ReplaceAbsent | src/vendors.rs:97-98 | text with no occurrence of the pattern is returned unchanged |
| StrReplace.ReplaceFirstMatch | src/vendors.rs:97-98 | at the leftmost occurrence k, the result is the text before k, then the replacement, then the rest replaced |
| StrReplace.ReplaceSkips | src/vendors.rs:97-98 | a prefix that does not contain the pattern's first character is copied unchanged ahead of the replaced rest |
| StrReplace.ReplaceSkipsOther | src/vendors.rs:97-98 | a prefix whose second character cannot continue a match, and whose tail does not hold the pattern's first character, is copied unchanged |
| StrReplace.ReplaceShort | src/vendors.rs:97-98 | text shorter than the pattern is unchanged |
| StrReplace.ReplaceKeepsHead | src/vendors.rs:97-98 | text whose first character differs from the pattern's keeps that first character, so the result is non-empty |
| Catalog.RowAt | src/vendors.rs:124-437 | each vendor's row sits at its position in the table and carries that vendor's tag |
| Catalog.RowWellFormed | src/vendors.rs:124-437 | every row has ten slots and a non-empty executable. The flag slot has no placeholder. Every template is either empty (only Choco, Flatpak, Snap and Winget update; Pkgman info) or non-empty and does not start with '$' |
| Catalog.RowsApkToBrew | src/vendors.rs:125-160 | the Apk, Apt and Brew rows are well formed |
| Catalog.RowsCardsToDnf | src/vendors.rs:161-196 | the Cards, Choco and Dnf rows are well formed |
| Catalog.RowsEmergeToFlatpak | src/vendors.rs:197-232 | the Emerge, Eopkg and Flatpak rows are well formed |
| Catalog.RowsGuixToOpkg | src/vendors.rs:233-268 | the Guix, NixEnv and Opkg rows are well formed |
| Catalog.RowsPacmanToPkgman | src/vendors.rs:269-304 | the Pacman, Pkg and Pkgman rows are well formed |
| Catalog.RowsPortsToSlackpkg | src/vendors.rs:305-340 | the Ports, Scoop and Slackpkg rows are well formed |
| Catalog.RowsSnapToUrpm | src/vendors.rs:341-376 | the Snap, Termux and Urpm rows are well formed |
| Catalog.RowsWingetToYay | src/vendors.rs:377-412 | the Winget, Xbps and Yay rows are well formed |
| Catalog.RowsYumToZypper | src/vendors.rs:413-436 | the Yum and Zypper rows are well formed |
| Catalog.PositionOfRow | src/vendors.rs:124-437 | the row at index i is tagged with the vendor whose position is i |
| Catalog.PositionTagAt | src/vendors.rs:124-437 | the tag at index i has position i, for all 26 indices |
| Catalog.TagsUnique | src/vendors.rs:124-437 | no two rows carry the same vendor |
| Catalog.ExactlyOneRow | src/vendors.rs:439-447 | for every vendor, some row matches and every matching row is at the same index, so the search cannot panic |
| Catalog.Profile | src/vendors.rs:439-447 | the row the lookup yields is tagged with the requested vendor, is well formed and equals every row with that tag |
| Catalog.ProfileIsRow | src/vendors.rs:124-437 | the looked-up row is that vendor's row constant |
| Catalog.ProfileAt | src/vendors.rs:439-447 | every row of the table is the profile of the vendor it is tagged with |
| Catalog.Executable | src/vendors.rs:52 | the probed executable name is non-empty |
| Catalog.ExecutableIsSlotZero | src/vendors.rs:51-52 | the probed name is slot 0 of the vendor's row |
| Catalog.Lookup | src/vendors.rs:439-447 | the linear search returns the row tagged with the requested vendor; the panic after the loop is unreachable |
| Formatter.SlotIndex | src/vendors.rs:87-96 | each action reads one of the template slots 2-9 |
| Formatter.SlotIndexBijective | src/vendors.rs:87-96 | every template slot belongs to exactly one action |
| Formatter.Format | src/vendors.rs:86-99 | an empty template gives the empty command whatever the arguments and flag |
| Formatter.FormatKeepsPlainTemplate | src/vendors.rs:97-98 | a template with neither placeholder is returned verbatim |
| Formatter.FormatWithoutYesIgnoresFlag | src/vendors.rs:97 | without auto-confirm the flag text plays no part in the command |
| Formatter.FormatEmptyFlagIgnoresYes | src/vendors.rs:97 | a vendor with an empty flag formats the same command with or without auto-confirm |
| Formatter.SubstituteYes | src/vendors.rs:97 | replacing $yes in a piece-wise template fills exactly the $yes pieces and keeps $args |
| Formatter.SubstituteArgs | src/vendors.rs:98 | replacing $args afterwards fills exactly the $args pieces, provided the flag has no '$' |
| Formatter.FormatSpells | src/vendors.rs:86-99 | for a template made of literal text without '$' and the two placeholders, with a flag without '$', the command is that template with $yes filled by the flag (or nothing) and $args by the arguments |
| Formatter.FormatEmptyIffUnsupported | src/vendors.rs:86-99 | for every table row, the command is empty exactly when the action is one the vendor marks unsupported, whatever the arguments |
| Formatter.PacmanInstall | src/vendors.rs:269-280 | Pacman install is "pacman -S ", then the flag when yes, then " ", then the arguments |
| Formatter.PacmanInstallExample | src/vendors.rs:86-99 | install vim with yes on Pacman gives "pacman -S --noconfirm vim" |
| Formatter.AptUpdate | src/vendors.rs:137-148 | Apt update is "apt update " followed by the flag when yes; the arguments are ignored |
| Formatter.AptUpdateExample | src/vendors.rs:86-99 | Apt update without yes keeps the trailing space, for any arguments |
| Formatter.ApkInstall | src/vendors.rs:125-136 | Apk install is "apk add " followed by the arguments for either setting of yes, since Apk's flag is empty |
| Formatter.ApkInstallKeepsArgsExample | src/vendors.rs:97-98 | placeholder text inside the arguments is not expanded again, because $yes is replaced before $args |
| Formatter.YayRemove | src/vendors.rs:405 | Yay remove is "pacman -Rs ", the flag when yes, and " $"; the arguments never appear |
| Formatter.YayRemoveWith | src/vendors.rs:97-98 | both replacements on Yay's remove template leave the trailing "$" and insert the flag |
| Formatter.YayRemoveDropsArgs | src/vendors.rs:86-99 | the command formatted for Yay remove does not depend on the arguments |
| Platforms.CandidatesAsWritten | src/vendors.rs:106-119 | the list as written: attributes guard only Termux, Pkgman, Apt, Brew and Scoop |
| Platforms.Candidates | src/vendors.rs:106-119 | the list with each line guarded by its target, in the same order |
| Platforms.CandidatesServePlatform | src/vendors.rs:106-119 | a vendor is a candidate on a platform exactly when it serves that platform |
| Platforms.LinuxCandidates | src/vendors.rs:112-113 | the Linux line lists exactly the sixteen Linux vendors |
| Platforms.UnlistedVendors | src/vendors.rs:106-119 | a vendor serving no platform (Guix, Opkg, Pkg) is never probed, on either list |
| Platforms.AsWrittenProbes | src/vendors.rs:106-119 | as written, a vendor is probed on a target exactly when it serves some platform and, if it is one of the five that carry an attribute (Termux, Pkgman, Apt, Brew, Scoop), that platform is the target |
| Platforms.LeadingMembers | src/vendors.rs:108-112 | the guarded elements ahead of the unguarded run: Termux on Android, Pkgman on Haiku, Apt on Linux, nothing elsewhere |
| Platforms.UnguardedMembers | src/vendors.rs:113 | the elements after Apt on the Linux line are exactly the Linux vendors other than Apt |
| Platforms.TrailingMembers | src/vendors.rs:114-117 | the last two lines contribute Ports, Choco and Winget on every target, Brew only on macOS and Scoop only on Windows |
| Platforms.AsWrittenUnguardedEverywhere | src/vendors.rs:106-119 | as written, every element without an attribute is probed on every target |
| Platforms.AsWrittenDiffers | src/vendors.rs:106-119 | as written, the list differs from the per-platform list on every target |
| Platforms.AsWrittenMacOSOrder | src/vendors.rs:106-119 | as written on macOS, nix-env is 9th of 19 candidates and Homebrew 16th, so Homebrew is not among the first nine |
| Platforms.AsWrittenLinuxEndsWithWinget | src/vendors.rs:106-119 | as written on Linux, winget is the last of 19 candidates and appears nowhere before it |
| Resolver.FirstInstalled | src/vendors.rs:50-55 | the index of the first candidate whose executable is installed: all earlier ones are not installed, and the list's length means none is installed |
| Resolver.FirstInstalledFindsAny | src/vendors.rs:50-56 | the search stops inside the list exactly when some candidate is installed |
| Resolver.ProbedName | src/vendors.rs:51-52 | the name handed to the probe is the vendor's executable, read from the row the lookup returns |
| Resolver.Resolve | src/vendors.rs:50-59 | returns Ok with the first candidate whose executable is installed; when there is none, returns an error "no vendor installed, candidates are: " followed by all candidate names joined with ", " |
| Resolver.NewAsWritten | src/vendors.rs:48-59 | the code as written: resolution over the list get_vendors builds; the first installed candidate, or the error naming every candidate |
| Resolver.New | src/vendors.rs:48-59 | resolution over the corrected per-platform list from the Findings row (not the list the code builds); a vendor it returns serves that platform |
| Resolver.AsWrittenLinuxPicksWinget | src/vendors.rs:106-119 | on Linux with only winget installed, the code as written resolves to Winget, the 19th candidate, while the per-platform list finds no vendor |
| Resolver.ResolvedServesPlatform | src/vendors.rs:48-55 | under the corrected per-platform list, the vendor New returns is installed and serves the platform |
| Resolver.JoinContains | src/vendors.rs:58 | every piece occurs in the joined text |
| Resolver.Name | src/vendors.rs:58 | the Debug rendering of a vendor is its capitalised variant name, never empty |
| Resolver.Join | src/vendors.rs:58 | the pieces with the separator between neighbours, as Rust's join; the joined text starts with the first piece, and JoinContains shows every piece occurs in it |
| Resolver.MessageNamesEveryCandidate | src/vendors.rs:56-59 | the error message names every candidate probed, for any candidate list, so for New and NewAsWritten alike |
| Resolver.AsWrittenMacOSSkipsBrew | src/vendors.rs:106-119 | as written, a macOS host with nix-env and Homebrew resolves among the first nine candidates and never to Homebrew; per platform it resolves to Homebrew |
| Dispatcher.ShellFor | src/vendors.rs:76-79 | Windows uses the program cmd with /C; every other target uses sh with -c; the command is passed unchanged |
| Dispatcher.Outcome | src/vendors.rs:79-81 | a child that could not start gives the error; an exit code is passed through; a missing code gives 0 |
| Dispatcher.Execute | src/vendors.rs:62-82 | the command is formatted from the vendor's row. Then: empty gives Ok(1) and the "not supported" diagnostic; dry run gives Ok(0) and echoes the command; otherwise exactly one shell call, whose outcome is the result. A spawn is attempted (whether or not the shell starts) exactly when the action is supported and this is not a dry run |

## Left out

- StrReplace.Replace: requires a non-empty pattern. Rust's replace with an empty pattern inserts the replacement between characters, but the code only ever replaces "$yes" and "$args".
- `which::which` is an abstract predicate on executable names. The search of PATH, executable bits and Windows extensions are not part of this model.
- Spawning `sh -c`/`cmd /C` and waiting for the child is an abstract function from the shell call to its status. Standard I/O inheritance, signals and the OS error text are not modelled.
- `eprintln!` output is recorded as a `Diagnostic` effect. Writing to standard error is not modelled.
- Dispatcher.Execute: exit codes are unbounded integers rather than Rust's i32. The value is passed through unchanged.
- Conditional compilation on the target operating system is modelled as a `Platform` parameter with six values. Targets other than Android, Haiku, Linux, macOS and Windows are grouped as `OtherOs`.
- `src/params.rs` and `src/bin` (command-line parsing, configuration, the program's entry point) are not part of this model.

## Findings

| source | as written | input that shows it | evidently intended | confidence | as-written member | corrected member |
|---|---|---|---|---|---|---|
| src/vendors.rs:106-119 | Each `#[cfg(target_os = …)]` inside `vec![…]` applies only to the single element after it. So Dnf…Snap, Ports, Choco and Winget are candidates on every target, and only Termux, Pkgman, Apt, Brew and Scoop depend on it | a macOS host with both nix-env and brew installed: nix-env (9th candidate) is chosen over Homebrew (16th); on Linux winget is probed, on Windows dnf | each line guarded as a whole: Android [Termux], Haiku [Pkgman], Linux [Apt … Snap], macOS [Brew, Ports], Windows [Scoop, Choco, Winget], other targets none | not executed; high (the attribute grammar binds to one element, and the line layout groups vendors by target) | Platforms.AsWrittenDiffers | Platforms.CandidatesServePlatform |
