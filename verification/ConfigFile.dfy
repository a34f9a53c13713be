/**
  config.toml over install and uninstall (pkg/app/install.go): the text of the
  file, the profiles known from it, and the methods that change both.
*/
module ConfigFile {
  import opened Wrappers
  import opened TextLines
  import opened TomlEdit
  import opened TomlTheorems
  import opened Install
  import opened ProfileNames
  import opened ProfileReader
  import opened ProfileFile

  /** mergeProfile: a fresh install over a stored profile. */
  function Merge(stored: Profile, given: Profile): Profile {
    Profile(
      given.url,
      if given.clientID != "" then given.clientID else stored.clientID,
      if given.callbackPort != 0 then given.callbackPort else stored.callbackPort,
      if |given.scopes| > 0 then given.scopes else stored.scopes,
      if given.issuer != "" then given.issuer else stored.issuer,
      if given.bearerEnv != "" then given.bearerEnv else stored.bearerEnv,
      stored.headers)
  }

  /** sameProfile: every field that is printed, but for the headers. */
  predicate Same(a: Profile, b: Profile) {
    && a.url == b.url && a.clientID == b.clientID && a.callbackPort == b.callbackPort
    && a.issuer == b.issuer && a.bearerEnv == b.bearerEnv && a.scopes == b.scopes
  }

  /** The profiles known from the file are what its reader finds in it. */
  ghost predicate Agrees(text: string, profiles: map<string, Profile>, known: Escapes) {
    forall m :: m in profiles ==> ReadProfile(text, m, known) == profiles[m]
  }

  /** A new profile, and one that is updated where it stands, without other sections further down. */
  ghost predicate InPlace(text: string, name: string, exists_: bool) {
    if exists_ then InOnePlace(text, name) else !HasOwn(SplitAfter(text), name)
  }

  lemma AppendedAgrees(
    text: string, profiles: map<string, Profile>, name: string, p: Profile, printable: char -> bool, known: Escapes)
    requires Agrees(text, profiles, known) && PlainName(name) && !HasOwn(SplitAfter(text), name) && Legible(p, printable, known)
    ensures Agrees(text + Join(Block(name, p, printable)), profiles[name := p], known)
  {
    hide PlainName, SplitAfter, Block, ReadProfile, Legible, Join, BlockOf;
    PrintedBlock(name, p, printable);
    InstalledReadsBackWhen(text, name, p, printable, known);
    forall m | m in profiles && m != name
      ensures ReadProfile(text + Join(Block(name, p, printable)), m, known) == profiles[m]
    {
      AppendingKeepsOthers(text, name, Block(name, p, printable), m, known);
    }
  }

  lemma UpdatedAgrees(
    text: string, profiles: map<string, Profile>, name: string, p: Profile, printable: char -> bool, known: Escapes)
    requires Agrees(text, profiles, known) && PlainName(name) && HasOwn(SplitAfter(text), name) && InOnePlace(text, name)
    requires Legible(p, printable, known)
    ensures Agrees(Splice(text, name, Join(Block(name, p, printable))).out, profiles[name := p], known)
  {
    hide PlainName, SplitAfter, Block, ReadProfile, Legible, Join, BlockOf, Splice, InOnePlace, HasOwn;
    PrintedBlock(name, p, printable);
    UpdatedReadsBackWhen(text, name, p, printable, known);
    forall m | m in profiles && m != name
      ensures ReadProfile(Splice(text, name, Join(Block(name, p, printable))).out, m, known) == profiles[m]
    {
      SplicingKeepsOthers(text, name, Block(name, p, printable), m, known);
    }
  }

  lemma RemovedAgrees(text: string, profiles: map<string, Profile>, name: string, known: Escapes)
    requires Agrees(text, profiles, known) && HasOwn(SplitAfter(text), name)
    ensures Agrees(Splice(text, name, "").out, profiles - {name}, known)
  {
    hide SplitAfter, ReadProfile, Splice, HasOwn;
    assert Join([]) == "";
    forall m | m in profiles && m != name
      ensures ReadProfile(Splice(text, name, "").out, m, known) == profiles[m]
    {
      SplicingKeepsOthers(text, name, [], m, known);
    }
  }

  datatype Ensured = Reused | Appended | Updated | NoSection

  class App {
    const printable: char -> bool
    var text: string                    // config.toml; empty while there is no such file
    var backup: Option<string>          // config.toml.bak
    var profiles: map<string, Profile>

    constructor (printable: char -> bool, text: string, profiles: map<string, Profile>)
      ensures this.printable == printable && this.text == text && this.profiles == profiles && backup == None
    {
      this.printable, this.text, this.profiles := printable, text, profiles;
      backup := None;
    }

    /** editProfileBlock: the file is rewritten with the block in place, or left alone when it has no such section. */
    method EditProfileBlock(name: string, block: string) returns (ok: bool)
      modifies this`text, this`backup
      ensures ok == HasOwn(SplitAfter(old(text)), name)
      ensures text == Splice(old(text), name, block).out
      ensures backup == if ok then Some(old(text)) else old(backup)
      ensures !ok ==> text == old(text)
    {
      var out: string;
      out, ok := SpliceProfileBlock(text, name, block);
      if !ok {
        return;
      }
      backup := Some(text);
      text := out;
    }

    /** ensureProfile: a new profile is appended, a changed one replaced in place, an unchanged one reused. */
    method EnsureProfile(name: string, given: Profile) returns (r: Ensured)
      modifies this
      ensures r == if name !in old(profiles) then Appended
        else if Same(old(profiles)[name], Merge(old(profiles)[name], given)) then Reused
        else if HasOwn(SplitAfter(old(text)), name) then Updated
        else NoSection
      ensures r.Appended? ==>
        && text == old(text) + Join(Block(name, given, printable)) && backup == old(backup)
        && profiles == old(profiles)[name := given]
      ensures r.Updated? ==>
        var merged := Merge(old(profiles)[name], given);
        && text == Splice(old(text), name, Join(Block(name, merged, printable))).out
        && backup == Some(old(text)) && profiles == old(profiles)[name := merged]
      ensures r.Reused? || r.NoSection? ==> text == old(text) && backup == old(backup) && profiles == old(profiles)
      ensures PlainName(name) && InPlace(old(text), name, name in old(profiles)) && name in profiles ==>
        forall known :: Agrees(old(text), old(profiles), known) && Legible(profiles[name], printable, known) ==>
          Agrees(text, profiles, known)
    {
      hide Merge, Same, Agrees, InOnePlace, Legible, PlainName, Splice, Block, SplitAfter, Join;
      var exists_, desired := name in profiles, given;
      if exists_ {
        desired := Merge(profiles[name], given);
        if Same(profiles[name], desired) {
          return Reused;
        }
      }
      var block := ProfileTOML(name, desired, printable);
      if exists_ {
        var ok := EditProfileBlock(name, block);
        if !ok {
          return NoSection;
        }
        forall known |
          Agrees(old(text), profiles, known) && PlainName(name) && InOnePlace(old(text), name) && Legible(desired, printable, known)
          ensures Agrees(text, profiles[name := desired], known)
        {
          UpdatedAgrees(old(text), profiles, name, desired, printable, known);
        }
        r := Updated;
      } else {
        forall known |
          Agrees(text, profiles, known) && PlainName(name) && !HasOwn(SplitAfter(text), name) && Legible(given, printable, known)
          ensures Agrees(text + block, profiles[name := desired], known)
        {
          AppendedAgrees(text, profiles, name, desired, printable, known);
        }
        text := text + block;
        r := Appended;
      }
      profiles := profiles[name := desired];
    }

    /** The profile's part of uninstall. */
    method RemoveProfile(name: string) returns (ok: bool)
      modifies this
      ensures ok == (name in old(profiles) && HasOwn(SplitAfter(old(text)), name))
      ensures ok ==> text == Splice(old(text), name, "").out && backup == Some(old(text)) && profiles == old(profiles) - {name}
      ensures !ok ==> text == old(text) && backup == old(backup) && profiles == old(profiles)
      ensures forall known :: Agrees(old(text), old(profiles), known) ==> Agrees(text, profiles, known)
    {
      hide Agrees, Splice, SplitAfter;
      if name !in profiles {
        return false;
      }
      ok := EditProfileBlock(name, "");
      if ok {
        forall known | Agrees(old(text), profiles, known)
          ensures Agrees(text, profiles - {name}, known)
        {
          RemovedAgrees(old(text), profiles, name, known);
        }
        profiles := profiles - {name};
      }
    }

    /**
      Installing a plainly named profile and uninstalling it: it is gone again,
      and the file is the same but for blank lines and a missing LF at its end.
    */
    method InstallUninstall(name: string, given: Profile)
      requires PlainName(name) && name !in profiles && !HasOwn(SplitAfter(text), name)
      modifies this
      ensures profiles == old(profiles) && text == Stripped(old(text))
    {
      hide Block, BlockOf, Splice, Stripped, PlainName, SplitAfter, Join;
      PrintedBlock(name, given, printable);
      TomlTheorems.InstallThenUninstall(text, name, Block(name, given, printable));
      FoundInAppended(text, name, Block(name, given, printable));
      var _ := EnsureProfile(name, given);
      var _ := RemoveProfile(name);
    }
  }

  lemma FoundInAppended(text: string, name: string, block: seq<string>)
    requires BlockOf(block, name)
    ensures HasOwn(SplitAfter(text + Join(block)), name)
  {
    hide SplitAfter, Own, Closed;
    AppendedLines(text, block, name);
    assert (Closed(text) + block[1..] + [""])[|Closed(text)|] == block[1];
  }

  /**
    What a merge keeps: without flags only the URL changes; with all flags only
    the headers stay; and installing with two sets of flags in turn is
    installing with the second laid over the first.
  */
  lemma MergeLaws(stored: Profile, given: Profile, again: Profile)
    ensures Merge(stored, Profile(given.url, "", 0, [], "", "", given.headers)) == stored.(url := given.url)
    ensures given.clientID != "" && given.callbackPort != 0 && given.scopes != [] && given.issuer != "" && given.bearerEnv != "" ==>
      Merge(stored, given) == given.(headers := stored.headers)
    ensures Merge(Merge(stored, given), again) == Merge(stored, Merge(given, again))
  {
  }

  /** Installing a second time with the same flags changes nothing, and what is unchanged prints the same. */
  lemma ReinstallIsReused(stored: Profile, given: Profile)
    ensures Same(Merge(stored, given), Merge(Merge(stored, given), given))
    ensures Merge(Merge(stored, given), given) == Merge(stored, given)
    ensures Same(stored, Merge(stored, given)) <==> stored == Merge(stored, given)
  {
  }

  /** Updating a plainly named profile in place is idempotent on the bytes of the file. */
  lemma UpdateIsIdempotent(text: string, name: string, p: Profile, printable: char -> bool)
    requires PlainName(name)
    ensures var b := Join(Block(name, p, printable));
      Splice(Splice(text, name, b).out, name, b) == Splice(text, name, b)
  {
    PrintedBlock(name, p, printable);
    ReplaceIsIdempotent(text, name, Block(name, p, printable));
  }

  /** Install and uninstall are inverse exactly on texts that are empty or end in a complete line that is not blank. */
  lemma UninstallUndoesInstallWhen(text: string, name: string, p: Profile, printable: char -> bool)
    requires PlainName(name) && !HasOwn(SplitAfter(text), name)
    ensures var undone := Splice(text + Join(Block(name, p, printable)), name, "");
      && undone.ok
      && (undone.out == text <==> text == "" || EndsInText(text))
  {
    PrintedBlock(name, p, printable);
    InstallThenUninstall(text, name, Block(name, p, printable));
    UninstallRestoresWhen(text);
  }

  /** A dotted name is written as if it were plain, and never found again. */
  lemma DottedNameIsLost(url: string, printable: char -> bool)
    ensures var p := Profile(url, "", 0, [], "", "", []);
      !HasOwn(SplitAfter(Join(Block("a.b", p, printable))), "a.b")
  {
    var p := Profile(url, "", 0, [], "", "", []);
    assert SplitAfter("") == [""] && !HasOwn(SplitAfter(""), "a.b") by {
      HeadersAreNoNotes("", "a.b");
    }
    assert "a.b"[1] == '.' && '.' in "a.b";
    FoundAgainWhenPlain("", "a.b", p, printable);
    assert "" + Join(Block("a.b", p, printable)) == Join(Block("a.b", p, printable));
  }
}
