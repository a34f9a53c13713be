/** Which names a [profiles.<name>] header can carry. */
module ProfileNames {
  import opened Wrappers
  import opened TextLines
  import opened TomlEdit
  import opened TomlTheorems
  import opened Install

  /** Nothing in it that a dotted key or a header would take for its own. */
  ghost predicate PlainKey(name: string) {
    && TrimSpace(name) == name
    && forall c :: c in name ==> c != '.' && !IsQuote(c) && c != ']'
  }

  ghost predicate PlainName(name: string) { PlainKey(name) && '\n' !in name }

  // ----- parts of keys -----

  lemma {:induction false} PrefixPart(prefix: string, key: string, cur: string)
    requires forall c :: c in prefix ==> c != '.' && !IsQuote(c)
    ensures Parts(prefix + "." + key, cur, None) == [TrimSpace(cur + prefix)] + Parts(key, "", None)
    decreases |prefix|
  {
    var all := prefix + "." + key;
    if prefix == "" {
      assert all[1..] == key && cur + "" == cur;
    } else {
      assert prefix[0] in prefix;
      assert all[0] == prefix[0] && all[1..] == prefix[1..] + "." + key;
      assert forall c :: c in prefix[1..] ==> c in prefix;
      PrefixPart(prefix[1..], key, cur + [prefix[0]]);
      assert (cur + [prefix[0]]) + prefix[1..] == cur + prefix;
    }
  }

  /** The first part of a key is the whole key only if the key has but that part and needs no trimming or unquoting. */
  lemma {:induction false} FirstPart(key: string, cur: string, quote: Option<char>)
    ensures |Parts(key, cur, quote)[0]| <= |cur| + |key|
    ensures quote.None? && |Parts(key, cur, quote)[0]| == |cur| + |key| ==>
      TrimSpace(cur + key) == cur + key && forall c :: c in key ==> c != '.' && !IsQuote(c)
    decreases |key|
  {
    if key == "" {
      TrimSpaceShortens(cur);
      assert cur + "" == cur;
    } else {
      var rest := key[1..];
      FirstPart(rest, cur, None);
      FirstPart(rest, cur, Some(key[0]));
      FirstPart(rest, cur + [key[0]], quote);
      TrimSpaceShortens(cur);
      assert (cur + [key[0]]) + rest == cur + key;
      assert forall c :: c in key ==> c == key[0] || c in rest;
    }
  }

  lemma {:induction false} OnePart(key: string, cur: string)
    requires forall c :: c in key ==> c != '.' && !IsQuote(c)
    ensures Parts(key, cur, None) == [TrimSpace(cur + key)]
    decreases |key|
  {
    if key == "" {
      assert cur + "" == cur;
    } else {
      assert key[0] in key;
      assert forall c :: c in key[1..] ==> c in key;
      OnePart(key[1..], cur + [key[0]]);
      assert (cur + [key[0]]) + key[1..] == cur + key;
    }
  }

  /** Parts are made of what the key is made of. */
  lemma {:induction false} PartsFromKey(key: string, cur: string, quote: Option<char>, c: char, k: nat)
    requires k < |Parts(key, cur, quote)| && c in Parts(key, cur, quote)[k]
    ensures c in cur || c in key
    decreases |key|
  {
    if key == "" {
      FromTrimmed(cur, c);
    } else if quote.Some? && key[0] == quote.value {
      PartsFromKey(key[1..], cur, None, c, k);
    } else if quote.None? && IsQuote(key[0]) {
      PartsFromKey(key[1..], cur, Some(key[0]), c, k);
    } else if quote.None? && key[0] == '.' {
      if k == 0 {
        FromTrimmed(cur, c);
      } else {
        PartsFromKey(key[1..], "", None, c, k - 1);
      }
    } else {
      PartsFromKey(key[1..], cur + [key[0]], quote, c, k);
    }
  }

  lemma {:induction false} FromTrimmed(s: string, c: char)
    requires c in TrimSpace(s)
    ensures c in s
  {
    TrimRightIsPrefix(TrimLeft(s));
    FromLeft(s, c);
  }

  lemma {:induction false} FromLeft(s: string, c: char)
    requires c in TrimLeft(s)
    ensures c in s
  {
    if s != "" && IsSpace(s[0]) {
      FromLeft(s[1..], c);
    }
  }

  // ----- the headers install prints -----

  lemma TrimmedHeader(indent: string, text: string)
    requires forall c :: c in indent ==> IsSpace(c)
    ensures TrimSpace(indent + "[" + text + "]\n") == "[" + text + "]"
  {
    var s := "[" + text + "]";
    TrimStart(indent, s + "\n");
    TrimRightKeeps(s, "\n");
    assert TrimRight("\n") == "" && s + "" == s;
    assert indent + "[" + text + "]\n" == indent + (s + "\n");
  }

  lemma HeaderKey(line: string, text: string)
    requires TrimSpace(line) == "[" + text + "]"
    ensures TableKey(line) == Some(TrimSpace((text + "]")[..IndexOf(text + "]", ']')]))
  {
    hide TrimSpace, IndexOf;
    assert ("[" + text + "]")[1..] == text + "]";
    assert (text + "]")[|text|] == ']';
    IndexInside(text);
  }

  lemma IndexInside(text: string)
    ensures IndexOf(text + "]", ']') <= |text|
  {
    assert (text + "]")[|text|] == ']';
  }

  lemma ProfileParts(cut: string)
    ensures Parts(TrimSpace("profiles." + cut), "", None) == ["profiles"] + Parts(TrimRight(cut), "", None)
  {
    hide Parts, TrimRight;
    TrimStart("", "profiles." + cut);
    TrimRightKeeps("profiles.", cut);
    assert "" + ("profiles." + cut) == "profiles." + cut;
    PrefixPart("profiles", TrimRight(cut), "");
    assert "profiles" + "." + TrimRight(cut) == "profiles." + TrimRight(cut);
    TrimmedWord();
    assert "" + "profiles" == "profiles";
  }

  lemma TrimmedWord()
    ensures TrimSpace("profiles") == "profiles"
  {
  }

  /** The key of a header that opens with "[profiles.". */
  lemma ProfileKey(indent: string, rest: string, line: string)
    requires (forall c :: c in indent ==> IsSpace(c)) && line == indent + "[profiles." + rest + "]\n"
    ensures var cut := (rest + "]")[..IndexOf(rest + "]", ']')];
      TableKey(line).Some? && Parts(TableKey(line).value, "", None) == ["profiles"] + Parts(TrimRight(cut), "", None)
  {
    hide TrimSpace, TrimRight, Parts, IndexOf, IsSpace, TableKey;
    var text, tail := "profiles." + rest, rest + "]";
    assert line == indent + "[" + text + "]\n";
    TrimmedHeader(indent, text);
    HeaderKey(line, text);
    assert text + "]" == "profiles." + tail;
    IndexAfter("profiles.", tail, ']');
    var k := IndexOf(tail, ']');
    IndexInside(rest);
    assert (text + "]")[..9 + k] == "profiles." + tail[..k];
    ProfileParts(tail[..k]);
  }

  lemma {:induction false} IndexAfter(prefix: string, s: string, c: char)
    requires c !in prefix
    ensures IndexOf(prefix + s, c) == |prefix| + IndexOf(s, c)
  {
    if prefix == "" {
      assert prefix + s == s;
    } else {
      assert (prefix + s)[0] == prefix[0] && (prefix + s)[1..] == prefix[1..] + s;
      IndexAfter(prefix[1..], s, c);
    }
  }

  /** The header that is printed for a profile addresses it exactly when the name is plain. */
  lemma TitleAddressesPlain(name: string)
    ensures Own(TitleLine(name), name) <==> PlainKey(name)
    ensures TableKey(TitleLine(name)).Some?
  {
    var line, tail := TitleLine(name), name + "]";
    var k := IndexOf(tail, ']');
    assert line == "" + "[profiles." + name + "]\n";
    ProfileKey("", name, line);
    var cut := tail[..k];
    assert tail[|name|] == ']';
    TrimRightIsPrefix(cut);
    FirstPart(TrimRight(cut), "", None);
    assert "" + TrimRight(cut) == TrimRight(cut);
    if Own(line, name) {
      assert k == |name| && cut == name == TrimRight(cut);
    }
    if PlainKey(name) {
      assert ']' !in name;
      IndexAfter(name, "]", ']');
      assert cut == name;
      TrimmedRight(name);
      OnePart(name, "");
      assert "" + name == name;
    }
  }

  lemma TrimmedRight(name: string)
    requires TrimSpace(name) == name
    ensures TrimRight(name) == name
  {
    TrimLeftShortens(name);
    TrimRightIsPrefix(TrimLeft(name));
  }

  lemma NestedParts(name: string)
    requires PlainKey(name)
    ensures Parts(TrimRight(name + ".headers"), "", None) == [name] + Parts("headers", "", None)
  {
    var rest := name + ".headers";
    hide Parts, TrimRight;
    TrimRightKeeps(rest, "");
    NothingToTrim();
    assert rest + "" == rest;
    assert rest == name + "." + "headers";
    PrefixPart(name, "headers", "");
    assert "" + name == name;
  }

  lemma NothingToTrim()
    ensures TrimRight("") == ""
  {
  }

  lemma UpToBracket(rest: string)
    requires ']' !in rest
    ensures (rest + "]")[..IndexOf(rest + "]", ']')] == rest
  {
    IndexAfter(rest, "]", ']');
  }

  lemma HeadersTitleIsOwn(name: string)
    requires PlainName(name)
    ensures Own(HeadersTitleLine(name), name)
  {
    hide Parts, TrimRight, TableKey, IndexOf;
    var line, rest := HeadersTitleLine(name), name + ".headers";
    assert line == "  " + "[profiles." + rest + "]\n";
    ProfileKey("  ", rest, line);
    UpToBracket(rest);
    NestedParts(name);
    OwnIs(line, name);
  }

  lemma OwnIs(line: string, name: string)
    requires TableKey(line).Some? && Addresses(Parts(TableKey(line).value, "", None), name)
    ensures Own(line, name)
  {
  }

  // ----- the whole block -----

  /** A line of a block that is no header, blank line or comment. */
  ghost predicate Setting(line: string, name: string) {
    IsLine(line) && TableKey(line).None? && !Note(line)
  }

  lemma SettingLine(indent: string, text: string, name: string)
    requires (forall c :: c in indent ==> c == ' ') && '\n' !in text
    requires text != "" && !IsSpace(text[0]) && text[0] != '[' && text[0] != '#'
    ensures Setting(indent + text + "\n", name)
  {
    var line := indent + text + "\n";
    assert line == indent + (text + "\n");
    TrimStart(indent, text + "\n");
    assert line[..|line| - 1] == indent + text;
  }

  lemma OptionalIs(shown: bool, key: string, value: string, name: string)
    requires key != "" && !IsSpace(key[0]) && key[0] != '[' && key[0] != '#' && '\n' !in key && '\n' !in value
    ensures var o := Optional(shown, key + " = " + value);
      |o| == (if shown then 1 else 0) && forall k :: 0 <= k < |o| ==> Setting(o[k], name)
  {
    hide Setting;
    SettingLine("", key + " = " + value, name);
    assert "" + (key + " = " + value) + "\n" == (key + " = " + value) + "\n";
  }

  lemma SettingsAre(p: Profile, printable: char -> bool, name: string)
    ensures var o := Settings(p, printable); o != [] && forall k :: 0 <= k < |o| ==> Setting(o[k], name)
  {
    hide Setting, Optional, Quote, Decimal, QuotedList;
    OptionalIs(true, "url", Quote(p.url, printable), name);
    OptionalIs(p.clientID != "", "clientID", Quote(p.clientID, printable), name);
    OptionalIs(p.callbackPort != 0, "callbackPort", Decimal(p.callbackPort), name);
    OptionalIs(|p.scopes| > 0, "scopes", "[" + QuotedList(p.scopes, printable) + "]", name);
    OptionalIs(p.issuer != "", "issuer", Quote(p.issuer, printable), name);
    OptionalIs(p.bearerEnv != "", "bearerEnv", Quote(p.bearerEnv, printable), name);
  }

  lemma {:induction false} HeaderLinesAre(headers: seq<(string, string)>, printable: char -> bool, name: string)
    ensures var o := HeaderLines(headers, printable);
      |o| == |headers| && forall k :: 0 <= k < |o| ==> Setting(o[k], name)
    decreases |headers|
  {
    hide Setting;
    if headers != [] {
      var last := |headers| - 1;
      HeaderLinesAre(headers[..last], printable, name);
      SettingLine("  ", Quote(headers[last].0, printable) + " = " + Quote(headers[last].1, printable), name);
    }
  }

  lemma TitleLines(name: string)
    requires '\n' !in name
    ensures IsLine(TitleLine(name)) && IsLine(HeadersTitleLine(name)) && IsLine("\n")
  {
    assert TitleLine(name)[..|TitleLine(name)| - 1] == "[profiles." + name + "]";
    assert HeadersTitleLine(name)[..|HeadersTitleLine(name)| - 1] == "  [profiles." + name + ".headers]";
    assert "\n"[..0] == "";
  }

  /** The block printed for a plain name is a block of that name's lines. */
  lemma PrintedBlock(name: string, p: Profile, printable: char -> bool)
    requires PlainName(name)
    ensures BlockOf(Block(name, p, printable), name)
  {
    hide Setting, Settings, HeaderLines, TitleLine, HeadersTitleLine, Own, IsLine, Note, PlainKey;
    var block := Block(name, p, printable);
    TitleAddressesPlain(name);
    HeadersTitleIsOwn(name);
    TitleLines(name);
    SettingsAre(p, printable, name);
    HeaderLinesAre(p.headers, printable, name);
    NewlineIsBlank();
    HeadersAreNoNotes("\n", name);
    forall k | 0 <= k < |block|
      ensures IsLine(block[k]) && !Foreign(block[k], name)
    {
      BlockLine(name, p, printable, k);
      SettingIs(block[k], name);
    }
    BlockLine(name, p, printable, |block| - 1);
    SettingIs(block[|block| - 1], name);
  }

  lemma SettingIs(line: string, name: string)
    ensures Setting(line, name) ==> IsLine(line) && !Foreign(line, name) && !Own(line, name) && !Note(line)
    ensures Own(line, name) ==> !Foreign(line, name)
  {
  }

  lemma BlockLine(name: string, p: Profile, printable: char -> bool, k: nat)
    requires k < |Block(name, p, printable)|
    ensures var block := Block(name, p, printable);
      && |block| > 2
      && (block[k] == "\n" || block[k] == TitleLine(name) || block[k] == HeadersTitleLine(name) || Setting(block[k], name))
      && (k == |block| - 1 ==> Setting(block[k], name))
      && (p.headers == [] && k > 1 ==> Setting(block[k], name))
      && (k == 1 ==> block[k] == TitleLine(name))
  {
    hide Setting, Settings, HeaderLines, TitleLine, HeadersTitleLine;
    SettingsAre(p, printable, name);
    HeaderLinesAre(p.headers, printable, name);
    var n, o, h := 2 + |Settings(p, printable)|, Settings(p, printable), HeaderLines(p.headers, printable);
    var block := Block(name, p, printable);
    if 2 <= k < n {
      assert block[k] == o[k - 2];
    } else if k >= n + 2 {
      assert block[k] == h[k - n - 2];
    }
  }

  // ----- which names can be removed again -----

  lemma LineOfName(line: string, name: string)
    requires Own(line, name) && '\n' in name
    ensures '\n' in TrimSpace(line)
  {
    var s := TrimSpace(line);
    var key := TableKey(line).value;
    PartsFromKey(key, "", None, '\n', 1);
    FromTrimmed(s[1..][..IndexOf(s[1..], ']')], '\n');
  }

  lemma {:induction false} TrimmedLine(line: string)
    requires IsLine(line) || '\n' !in line
    ensures '\n' !in TrimSpace(line)
  {
    if IsLine(line) {
      var text := line[..|line| - 1];
      assert line == text + "\n";
      TrimIgnoresLF(text);
      if '\n' in TrimSpace(text) {
        FromTrimmed(text, '\n');
      }
    } else if '\n' in TrimSpace(line) {
      FromTrimmed(line, '\n');
    }
  }

  /**
    A new profile that install appends can be found again, for a later install
    or an uninstall, exactly when its name is plain: "a.b" cannot.
  */
  lemma FoundAgainWhenPlain(text: string, name: string, p: Profile, printable: char -> bool)
    requires !HasOwn(SplitAfter(text), name) && p.headers == []
    ensures HasOwn(SplitAfter(text + Join(Block(name, p, printable))), name) <==> PlainName(name)
  {
    hide PlainKey, Own, IsLine, Block, SplitAfter, BlockOf, Closed;
    var block := Block(name, p, printable);
    if '\n' in name {
      var lines := SplitAfter(text + Join(block));
      SplitShape(text + Join(block));
      forall k | 0 <= k < |lines|
        ensures !Own(lines[k], name)
      {
        assert k < |lines| - 1 ==> IsLine(lines[..|lines| - 1][k]);
        TrimmedLine(lines[k]);
        if Own(lines[k], name) {
          LineOfName(lines[k], name);
        }
      }
    } else {
      AppendedTitle(text, name, p, printable);
    }
  }

  lemma AppendedTitle(text: string, name: string, p: Profile, printable: char -> bool)
    requires !HasOwn(SplitAfter(text), name) && p.headers == [] && '\n' !in name
    ensures HasOwn(SplitAfter(text + Join(Block(name, p, printable))), name) <==> PlainKey(name)
  {
    hide PlainKey, Own, IsLine, Note, Block, SplitAfter, Closed, TitleLine, Setting, Foreign;
    var block := Block(name, p, printable);
    TitleAddressesPlain(name);
    TitleLines(name);
    BlockStarts(name, p, printable);
    forall k | 0 <= k < |block|
      ensures IsLine(block[k]) && (k > 1 ==> !Own(block[k], name))
    {
      BlockLine(name, p, printable, k);
      SettingIs(block[k], name);
    }
    AppendedLines(text, block, name);
    ClosedLines(text, name);
    HeadersAreNoNotes("", name);
    OwnIsTitle(Closed(text), block, name);
  }

  lemma OwnIsTitle(closed: seq<string>, block: seq<string>, name: string)
    requires !HasOwn(closed, name) && |block| > 1 && !Own("", name)
    requires forall k :: 1 < k < |block| ==> !Own(block[k], name)
    ensures HasOwn(closed + block[1..] + [""], name) <==> Own(block[1], name)
  {
    hide Own;
    var all := closed + block[1..] + [""];
    assert all[|closed|] == block[1];
    if HasOwn(all, name) {
      var k :| 0 <= k < |all| && Own(all[k], name);
      if |closed| <= k < |all| - 1 {
        assert all[k] == block[k - |closed| + 1];
      }
    }
  }

  lemma BlockStarts(name: string, p: Profile, printable: char -> bool)
    ensures var block := Block(name, p, printable); |block| > 2 && block[0] == "\n" && block[1] == TitleLine(name)
  {
  }
}
