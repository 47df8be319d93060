/**
 * Turning an abstract action into a vendor's command line: the action picks
 * a template slot of the vendor's row, then every "$yes" in it becomes the
 * auto-confirm flag (or nothing) and, after that, every "$args" becomes the
 * argument text (src/vendors.rs:35-45, 85-100).
 */
module Formatter {
  import opened StrReplace
  import opened Catalog

  /** The abstract package actions. */
  datatype PlsCommand = Install | Remove | Upgrade | Search | Info | Update | UpgradeAll | List

  /** The placeholder for the auto-confirm flag. */
  const YesToken: string := "$yes"

  /** The placeholder for the argument text. */
  const ArgsToken: string := "$args"

  /** The template slot each action reads; slots 0 and 1 are never templates. */
  function SlotIndex(c: PlsCommand): (k: nat)
    ensures 2 <= k < SlotCount
  {
    match c
    case Install => 2
    case Remove => 3
    case Upgrade => 4
    case Search => 5
    case Info => 6
    case Update => 7
    case UpgradeAll => 8
    case List => 9
  }

  /** Each template slot belongs to exactly one action. */
  lemma SlotIndexBijective(k: nat)
    requires 2 <= k < SlotCount
    ensures exists c :: SlotIndex(c) == k
    ensures forall c1, c2 :: SlotIndex(c1) == k && SlotIndex(c2) == k ==> c1 == c2
  {
    var c :=
      if k == 2 then Install else if k == 3 then Remove else if k == 4 then Upgrade
      else if k == 5 then Search else if k == 6 then Info else if k == 7 then Update
      else if k == 8 then UpgradeAll else List;
    assert SlotIndex(c) == k;
  }

  /**
   * The command line for action c on the row d: the selected template with
   * "$yes" replaced first and "$args" second. An empty template, the
   * table's way of saying the action is unsupported, yields the empty
   * string whatever the arguments.
   */
  function Format(c: PlsCommand, d: VendorData, args: string, yes: bool): (r: string)
    requires |d.slots| == SlotCount
    ensures d.slots[SlotIndex(c)] == [] ==> r == []
  {
    var template := d.slots[SlotIndex(c)];
    Replace(Replace(template, YesToken, if yes then d.slots[1] else ""), ArgsToken, args)
  }

  /** A template with neither placeholder is returned as it is. */
  lemma FormatKeepsPlainTemplate(c: PlsCommand, d: VendorData, args: string, yes: bool)
    requires |d.slots| == SlotCount
    requires !Occurs(YesToken, d.slots[SlotIndex(c)]) && !Occurs(ArgsToken, d.slots[SlotIndex(c)])
    ensures Format(c, d, args, yes) == d.slots[SlotIndex(c)]
  {
    var template := d.slots[SlotIndex(c)];
    ReplaceAbsent(template, YesToken, if yes then d.slots[1] else "");
    ReplaceAbsent(template, ArgsToken, args);
  }

  /** When yes is false the flag text of slot 1 plays no part in the result. */
  lemma FormatWithoutYesIgnoresFlag(c: PlsCommand, d: VendorData, args: string, flag: string)
    requires |d.slots| == SlotCount
    ensures Format(c, d, args, false) == Format(c, d.(slots := d.slots[1 := flag]), args, false)
  {
  }

  /** A vendor with an empty auto-confirm flag formats the same command either way. */
  lemma FormatEmptyFlagIgnoresYes(c: PlsCommand, d: VendorData, args: string)
    requires |d.slots| == SlotCount && d.slots[1] == []
    ensures Format(c, d, args, true) == Format(c, d, args, false)
  {
  }

  /*
   * A reference reading of templates: a template is a sequence of pieces,
   * each a literal text without '$' or one of the two placeholders.
   */

  /** One piece of a template. */
  datatype Piece = Text(s: string) | Yes | Args

  /** The literal texts of t contain no '$'. */
  predicate Plain(t: seq<Piece>) {
    forall i :: 0 <= i < |t| ==> t[i].Text? ==> '$' !in t[i].s
  }

  /**
   * The pieces written out, with yesText in place of each Yes and args in
   * place of each Args. Spell(t, YesToken, ArgsToken) is the template text.
   */
  function Spell(t: seq<Piece>, yesText: string, args: string): string {
    if t == [] then []
    else
      var head := match t[0] case Text(s) => s case Yes => yesText case Args => args;
      head + Spell(t[1..], yesText, args)
  }

  /** Substituting "$yes" fills every Yes piece and leaves "$args" alone. */
  lemma {:induction false} SubstituteYes(t: seq<Piece>, y: string)
    requires Plain(t)
    ensures Replace(Spell(t, YesToken, ArgsToken), YesToken, y) == Spell(t, y, ArgsToken)
  {
    if t != [] {
      assert Plain(t[1..]) by {
        forall i | 0 <= i < |t[1..]| && t[1..][i].Text? ensures '$' !in t[1..][i].s {
          assert t[1..][i] == t[i + 1];
        }
      }
      SubstituteYes(t[1..], y);
      var rest := Spell(t[1..], YesToken, ArgsToken);
      match t[0]
      case Text(s) =>
        assert '$' !in t[0].s;
        ReplaceSkips(s, rest, YesToken, y);
      case Yes =>
        assert StartsWith(YesToken + rest, YesToken) by { assert (YesToken + rest)[..|YesToken|] == YesToken; }
        assert (YesToken + rest)[|YesToken|..] == rest;
      case Args =>
        ReplaceSkipsOther(ArgsToken, rest, YesToken, y);
    }
  }

  /** Substituting "$args" then fills every Args piece, leaving the flag text alone. */
  lemma {:induction false} SubstituteArgs(t: seq<Piece>, y: string, a: string)
    requires Plain(t) && '$' !in y
    ensures Replace(Spell(t, y, ArgsToken), ArgsToken, a) == Spell(t, y, a)
  {
    if t != [] {
      assert Plain(t[1..]) by {
        forall i | 0 <= i < |t[1..]| && t[1..][i].Text? ensures '$' !in t[1..][i].s {
          assert t[1..][i] == t[i + 1];
        }
      }
      SubstituteArgs(t[1..], y, a);
      var rest := Spell(t[1..], y, ArgsToken);
      match t[0]
      case Text(s) =>
        assert '$' !in t[0].s;
        ReplaceSkips(s, rest, ArgsToken, a);
      case Yes =>
        ReplaceSkips(y, rest, ArgsToken, a);
      case Args =>
        assert StartsWith(ArgsToken + rest, ArgsToken) by { assert (ArgsToken + rest)[..|ArgsToken|] == ArgsToken; }
        assert (ArgsToken + rest)[|ArgsToken|..] == rest;
    }
  }

  /**
   * Formatting agrees with the reference reading: every "$yes" of the
   * template becomes the flag (or nothing when yes is false), every "$args"
   * becomes the argument text verbatim, even when that text itself holds
   * "$yes", and the literal text is kept.
   */
  lemma FormatSpells(c: PlsCommand, d: VendorData, args: string, yes: bool, t: seq<Piece>)
    requires |d.slots| == SlotCount && '$' !in d.slots[1]
    requires Plain(t) && d.slots[SlotIndex(c)] == Spell(t, YesToken, ArgsToken)
    ensures Format(c, d, args, yes) == Spell(t, if yes then d.slots[1] else "", args)
  {
    var y := if yes then d.slots[1] else "";
    SubstituteYes(t, y);
    SubstituteArgs(t, y, args);
  }

  /** Spelling a template of the form text, flag, text, arguments. */
  lemma SpellTextYesTextArgs(a: string, b: string, y: string, args: string)
    ensures Spell([Text(a), Yes, Text(b), Args], y, args) == a + y + b + args
  {
    var t := [Text(a), Yes, Text(b), Args];
    assert Spell(t[3..], y, args) == args;
    assert Spell(t[2..], y, args) == b + args;
    assert Spell(t[1..], y, args) == y + b + args;
  }

  /** Spelling a template of the form text, flag. */
  lemma SpellTextYes(a: string, y: string, args: string)
    ensures Spell([Text(a), Yes], y, args) == a + y
  {
    var t := [Text(a), Yes];
    assert Spell(t[1..], y, args) == y;
  }

  /** Spelling a template of the form text, arguments. */
  lemma SpellTextArgs(a: string, y: string, args: string)
    ensures Spell([Text(a), Args], y, args) == a + args
  {
    var t := [Text(a), Args];
    assert Spell(t[1..], y, args) == args;
  }

  /*
   * Facts about the catalog's own templates.
   */

  /**
   * The command comes out empty exactly for the actions the vendor does
   * not support, whatever the arguments and the auto-confirm choice.
   */
  lemma FormatEmptyIffUnsupported(c: PlsCommand, v: Vendor, args: string, yes: bool)
    ensures Format(c, Profile(v), args, yes) == [] <==> Unsupported(v, SlotIndex(c))
  {
    var d := Profile(v);
    var k := SlotIndex(c);
    assert TemplateSlot(d, k);
    if !Unsupported(v, k) {
      var y := if yes then d.slots[1] else "";
      ReplaceKeepsHead(d.slots[k], YesToken, y);
      ReplaceKeepsHead(Replace(d.slots[k], YesToken, y), ArgsToken, args);
    }
  }

  /** Installing vim with pacman, assuming yes: "pacman -S --noconfirm vim". */
  lemma PacmanInstallExample()
    ensures Format(Install, Profile(Pacman), "vim", true) == "pacman -S " + "--noconfirm" + " " + "vim"
  {
    ProfileIsRow(Pacman);
    PacmanInstall("vim", true);
  }

  /** Pacman's install command: the flag, if any, then the packages. */
  lemma PacmanInstall(args: string, yes: bool)
    ensures Format(Install, PacmanRow, args, yes) == "pacman -S " + (if yes then "--noconfirm" else "") + " " + args
  {
    var t := [Text("pacman -S "), Yes, Text(" "), Args];
    SpellTextYesTextArgs("pacman -S ", " ", YesToken, ArgsToken);
    FormatSpells(Install, PacmanRow, args, yes, t);
    SpellTextYesTextArgs("pacman -S ", " ", if yes then "--noconfirm" else "", args);
  }

  /** Updating with apt, not assuming yes: the space before "$yes" stays. */
  lemma AptUpdateExample(args: string)
    ensures Format(Update, Profile(Apt), args, false) == "apt update "
  {
    ProfileIsRow(Apt);
    AptUpdate(args, false);
  }

  /** Apt's update command takes the flag and no arguments. */
  lemma AptUpdate(args: string, yes: bool)
    ensures Format(Update, AptRow, args, yes) == "apt update " + (if yes then "--yes" else "")
  {
    var t := [Text("apt update "), Yes];
    SpellTextYes("apt update ", YesToken, ArgsToken);
    FormatSpells(Update, AptRow, args, yes, t);
    SpellTextYes("apt update ", if yes then "--yes" else "", args);
  }

  /** Argument text is inserted verbatim: a "$yes" inside it is not replaced. */
  lemma ApkInstallKeepsArgsExample()
    ensures Format(Install, Profile(Apk), "$yes", true) == "apk add $yes"
  {
    ProfileIsRow(Apk);
    ApkInstall("$yes", true);
  }

  /** Apk's install command has no flag: the packages follow "apk add ". */
  lemma ApkInstall(args: string, yes: bool)
    ensures Format(Install, ApkRow, args, yes) == "apk add " + args
  {
    var t := [Text("apk add "), Args];
    SpellTextArgs("apk add ", YesToken, ArgsToken);
    FormatSpells(Install, ApkRow, args, yes, t);
    SpellTextArgs("apk add ", "", args);
  }

  /**
   * Yay's remove template ends in a bare "$" where "$args" is expected, so
   * the packages to remove never reach the command.
   */
  lemma YayRemoveDropsArgs(args: string, yes: bool)
    ensures Format(Remove, Profile(Yay), args, yes) == "pacman -Rs " + (if yes then "--noconfirm" else "") + " $"
  {
    ProfileIsRow(Yay);
    YayRemove(args, yes);
  }

  lemma YayRemove(args: string, yes: bool)
    ensures Format(Remove, YayRow, args, yes) == "pacman -Rs " + (if yes then "--noconfirm" else "") + " $"
  {
    assert YayRow.slots[3] == "pacman -Rs " + YesToken + " $";
    YayRemoveWith(if yes then "--noconfirm" else "", args);
  }

  /** Substitution in Yay's remove template for any flag text without '$'. */
  lemma YayRemoveWith(y: string, args: string)
    requires '$' !in y
    ensures Replace(Replace("pacman -Rs " + YesToken + " $", YesToken, y), ArgsToken, args) == "pacman -Rs " + y + " $"
  {
    calc {
      Replace("pacman -Rs " + YesToken + " $", YesToken, y);
      { assert "pacman -Rs " + YesToken + " $" == "pacman -Rs " + (YesToken + " $");
        ReplaceSkips("pacman -Rs ", YesToken + " $", YesToken, y); }
      "pacman -Rs " + Replace(YesToken + " $", YesToken, y);
      { assert (YesToken + " $")[..4] == YesToken && (YesToken + " $")[4..] == " $"; }
      "pacman -Rs " + (y + Replace(" $", YesToken, y));
      { ReplaceShort(" $", YesToken, y); }
      "pacman -Rs " + y + " $";
    }
    calc {
      Replace("pacman -Rs " + y + " $", ArgsToken, args);
      { assert "pacman -Rs " + y + " $" == ("pacman -Rs " + y + " ") + "$"; }
      Replace(("pacman -Rs " + y + " ") + "$", ArgsToken, args);
      { ReplaceSkips("pacman -Rs " + y + " ", "$", ArgsToken, args); }
      ("pacman -Rs " + y + " ") + Replace("$", ArgsToken, args);
      { ReplaceShort("$", ArgsToken, args); }
      "pacman -Rs " + y + " $";
    }
  }
}
