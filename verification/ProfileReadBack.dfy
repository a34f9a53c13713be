/**
  What install writes is what a reader of the file finds: the printed profile
  is read back, and the other profiles read as they did before.
*/
module ProfileReadBack {
  import opened Wrappers
  import opened TextLines
  import opened TomlEdit
  import opened TomlTheorems
  import opened TomlHeaders
  import opened Install
  import opened ProfileNames
  import opened ProfileReader

  // ----- values -----

  ghost predicate Clear(v: string, printable: char -> bool, known: Escapes) {
    forall c :: c in v ==> Known(c, printable, known)
  }

  ghost predicate AllClear(texts: seq<string>, printable: char -> bool, known: Escapes) {
    forall k :: 0 <= k < |texts| ==> Clear(texts[k], printable, known)
  }

  lemma TextBack(v: string, printable: char -> bool, known: Escapes, rest: string)
    ensures ReadText((Quote(v, printable) + rest)[1..], known) == if Clear(v, printable, known) then Read(v, rest) else Fail
    ensures Quote(v, printable)[0] == '"' && |Quote(v, printable)| >= 2 && Quote(v, printable)[|Quote(v, printable)| - 1] == '"'
  {
    QuoteReadsBackWhen(v, printable, known, rest);
    assert (Quote(v, printable) + rest)[1..] == Escaped(v, printable) + "\"" + rest;
  }

  lemma NextDigit(tens: nat, n: nat, rest: string)
    requires n < 10
    ensures ReadDigits([HexDigit(n)] + rest, tens) == ReadDigits(rest, tens * 10 + n)
  {
    DigitBack(n);
    assert ([HexDigit(n)] + rest)[1..] == rest;
  }

  lemma DecimalIs(n: nat)
    ensures Decimal(n) == if n < 10 then [HexDigit(n)] else Decimal(n / 10) + [HexDigit(n % 10)]
  {
  }

  lemma {:induction false} DigitsBack(n: nat, rest: string)
    ensures ReadDigits(Decimal(n) + rest, 0) == ReadDigits(rest, n)
    decreases n
  {
    hide Decimal, ReadDigits, HexDigit;
    DecimalIs(n);
    if n < 10 {
      NextDigit(0, n, rest);
    } else {
      var tens, d := n / 10, n % 10;
      DigitsBack(tens, [HexDigit(d)] + rest);
      NextDigit(tens, d, rest);
      assert Decimal(n) + rest == Decimal(tens) + ([HexDigit(d)] + rest);
    }
  }

  lemma {:induction false} DigitsOnly(n: nat)
    ensures Decimal(n) != "" && Digit(Decimal(n)[0]) && Digit(Decimal(n)[|Decimal(n)| - 1])
    decreases n
  {
    DigitBack(n % 10);
    if n >= 10 {
      DigitsOnly(n / 10);
    }
  }

  lemma NumberReadsBack(n: int)
    ensures ReadNumber(Decimal(n)) == Read(n, "")
    ensures Decimal(n) != "" && Decimal(n)[0] != '"' && Decimal(n)[0] != '[' && !IsSpace(Decimal(n)[0])
    ensures !IsSpace(Decimal(n)[|Decimal(n)| - 1])
  {
    var m: nat := if n < 0 then -n else n;
    DigitsBack(m, "");
    DigitsOnly(m);
    assert Decimal(m) + "" == Decimal(m);
    if n < 0 {
      assert Decimal(n)[1..] == Decimal(m);
    }
  }

  lemma {:induction false} ListFront(scopes: seq<string>, printable: char -> bool)
    requires |scopes| >= 2
    ensures QuotedList(scopes, printable) == Quote(scopes[0], printable) + ", " + QuotedList(scopes[1..], printable)
    decreases |scopes|
  {
    hide Quote;
    var last := |scopes| - 1;
    if last > 1 {
      ListFront(scopes[..last], printable);
      assert scopes[..last][1..] == scopes[1..][..last - 1];
    } else {
      assert scopes[..last] == [scopes[0]] && scopes[1..] == [scopes[1]];
    }
  }

  lemma Unspaced(s: string)
    requires s != "" && !IsSpace(s[0])
    ensures TrimLeft(s) == s && TrimLeft(" " + s) == s
  {
    assert (" " + s)[1..] == s;
  }

  /** The last string of a list, and one with others behind it. */
  lemma LastItem(v: string, printable: char -> bool, known: Escapes)
    ensures ReadList(Quote(v, printable) + "]", known) == if Clear(v, printable, known) then Read([v], "") else Fail
  {
    hide Clear, ReadText, Quote;
    var s := Quote(v, printable) + "]";
    TextBack(v, printable, known, "]");
    Unspaced(s);
    assert TrimLeft("]") == "]" && "]"[1..] == "";
  }

  lemma ItemBefore(v: string, printable: char -> bool, known: Escapes, more: string)
    requires more != "" && !IsSpace(more[0])
    ensures ReadList(Quote(v, printable) + ", " + more, known) ==
      if Clear(v, printable, known) && ReadList(more, known).Read?
      then Read([v] + ReadList(more, known).value, ReadList(more, known).rest) else Fail
  {
    hide Clear, ReadText, Quote;
    var s := Quote(v, printable) + ", " + more;
    assert s == Quote(v, printable) + (", " + more);
    TextBack(v, printable, known, ", " + more);
    Unspaced(s);
    Unspaced(", " + more);
    Unspaced(more);
    assert (", " + more)[1..] == " " + more;
    assert ReadList(" " + more, known) == ReadList(more, known);
  }

  lemma {:induction false} ListBack(scopes: seq<string>, printable: char -> bool, known: Escapes)
    requires scopes != []
    ensures ReadList(QuotedList(scopes, printable) + "]", known) ==
      if AllClear(scopes, printable, known) then Read(scopes, "") else Fail
    ensures QuotedList(scopes, printable) != "" && QuotedList(scopes, printable)[0] == '"'
    decreases |scopes|
  {
    hide Clear, ReadList, Quote, IsSpace;
    if |scopes| == 1 {
      LastItem(scopes[0], printable, known);
      TextBack(scopes[0], printable, known, "]");
      assert scopes == [scopes[0]] && (AllClear(scopes, printable, known) <==> Clear(scopes[0], printable, known));
    } else {
      var more := QuotedList(scopes[1..], printable) + "]";
      ListFront(scopes, printable);
      TextBack(scopes[0], printable, known, "");
      ListBack(scopes[1..], printable, known);
      QuoteIsNoSpace();
      ItemBefore(scopes[0], printable, known, more);
      assert QuotedList(scopes, printable) + "]" == Quote(scopes[0], printable) + ", " + more;
      AllClearFront(scopes, printable, known);
      assert scopes == [scopes[0]] + scopes[1..];
    }
  }

  lemma QuoteIsNoSpace()
    ensures !IsSpace('"')
  {
  }

  lemma AllClearFront(scopes: seq<string>, printable: char -> bool, known: Escapes)
    requires scopes != []
    ensures AllClear(scopes, printable, known) <==> Clear(scopes[0], printable, known) && AllClear(scopes[1..], printable, known)
  {
    hide Clear;
    assert forall k :: 0 < k < |scopes| ==> scopes[k] == scopes[1..][k - 1];
  }

  // ----- a `key = value` line -----

  lemma {:induction false} BareBack(key: string, rest: string)
    requires (forall c :: c in key ==> BareChar(c)) && rest != "" && !BareChar(rest[0])
    ensures BareLength(key + rest) == |key|
  {
    if key == "" {
      assert key + rest == rest;
    } else {
      assert key[0] in key && (key + rest)[1..] == key[1..] + rest;
      BareBack(key[1..], rest);
    }
  }

  /** What is read of a value that is printed and nothing behind it. */
  ghost predicate Reads(vt: string, known: Escapes, v: Option<Value>) {
    && vt != "" && !IsSpace(vt[0]) && !IsSpace(vt[|vt| - 1]) && '\n' !in vt
    && ReadValue(vt, known) == if v.Some? then Read(v.value, "") else Fail
  }

  lemma EntryBack(keyText: string, key: string, vt: string, known: Escapes, v: Option<Value>)
    requires Reads(vt, known, v) && ReadKey(keyText + " = " + vt, known) == Read(key, " = " + vt)
    ensures ReadEntry(keyText + " = " + vt, known) == if v.Some? then Some(Entry(key, v.value)) else None
  {
    hide ReadKey, ReadValue;
    assert " = " + vt == " " + ("= " + vt) && ("= " + vt)[1..] == " " + vt;
    Unspaced("= " + vt);
    Unspaced(vt);
    assert TrimLeft("") == "";
  }

  lemma LineTrimmed(indent: string, text: string)
    requires (forall c :: c in indent ==> c == ' ') && text != "" && !IsSpace(text[0]) && !IsSpace(text[|text| - 1])
    ensures TrimSpace(indent + text + "\n") == text
  {
    assert indent + text + "\n" == indent + (text + "\n");
    TrimStart(indent, text + "\n");
    TrimRightKeeps(text, "\n");
    assert TrimRight("\n") == "" && text + "" == text;
  }

  /** A key the printer uses. */
  ghost predicate PlainSetting(key: string) {
    key != "" && forall c :: c in key ==> BareChar(c)
  }

  lemma SettingEntry(key: string, vt: string, v: Option<Value>, known: Escapes)
    requires PlainSetting(key) && Reads(vt, known, v)
    ensures ReadEntry(key + " = " + vt, known) == if v.Some? then Some(Entry(key, v.value)) else None
  {
    hide ReadValue, ReadEntry, Reads;
    var text := key + " = " + vt;
    assert key[0] in key;
    BareBack(key, " = " + vt);
    assert text == key + (" = " + vt) && text[..|key|] == key && text[|key|..] == " = " + vt;
    EntryBack(key, key, vt, known, v);
  }

  /** The line of an entry: what it is once it is trimmed, and that it is nothing else. */
  lemma EntryLine(indent: string, keyText: string, vt: string, name: string)
    requires (forall c :: c in indent ==> c == ' ') && '\n' !in keyText && '\n' !in vt && vt != "" && !IsSpace(vt[|vt| - 1])
    requires keyText != "" && !IsSpace(keyText[0]) && keyText[0] != '[' && keyText[0] != '#'
    ensures var line := indent + (keyText + " = " + vt) + "\n";
      TrimSpace(line) == keyText + " = " + vt && !Note(line) && TableKey(line).None?
  {
    hide TrimSpace, TableKey, Note, IsSpace, IsLine;
    var text := keyText + " = " + vt;
    assert text[0] == keyText[0] && text[|text| - 1] == vt[|vt| - 1];
    LineTrimmed(indent, text);
    SettingLine(indent, text, name);
  }

  lemma SettingRead(key: string, vt: string, v: Option<Value>, name: string, known: Escapes, p: Profile)
    requires PlainSetting(key) && Reads(vt, known, v)
    ensures ReadLine(key + " = " + vt + "\n", name, known, Reading(Main, p)) ==
      Reading(Main, if v.Some? then Set(p, Entry(key, v.value)) else p)
  {
    hide Set, ReadValue, Reads, ReadEntry, TableKey, Note, TrimSpace;
    ReadsShape(vt, known, v);
    SettingEntry(key, vt, v, known);
    assert key[0] in key && '\n' !in key;
    EntryLine("", key, vt, name);
    assert "" + (key + " = " + vt) + "\n" == key + " = " + vt + "\n";
  }

  lemma ReadsShape(vt: string, known: Escapes, v: Option<Value>)
    requires Reads(vt, known, v)
    ensures vt != "" && !IsSpace(vt[0]) && !IsSpace(vt[|vt| - 1]) && '\n' !in vt
  {
  }

  lemma OptionalRead(shown: bool, key: string, vt: string, v: Option<Value>, name: string, known: Escapes, p: Profile)
    requires shown ==> PlainSetting(key) && Reads(vt, known, v)
    ensures ReadLines(Optional(shown, key + " = " + vt), name, known, Reading(Main, p)) ==
      Reading(Main, if shown && v.Some? then Set(p, Entry(key, v.value)) else p)
  {
    hide Set, ReadLine, Reads;
    if shown {
      SettingRead(key, vt, v, name, known, p);
      assert [key + " = " + vt + "\n"][1..] == [];
    }
  }

  lemma {:induction false} ReadAppend(a: seq<string>, b: seq<string>, name: string, known: Escapes, r: Reading)
    ensures ReadLines(a + b, name, known, r) == ReadLines(b, name, known, ReadLines(a, name, known, r))
    decreases |a|
  {
    hide ReadLine;
    if a == [] {
      assert a + b == b;
    } else {
      assert (a + b)[1..] == a[1..] + b;
      ReadAppend(a[1..], b, name, known, ReadLine(a[0], name, known, r));
    }
  }

  // ----- a profile -----

  ghost function IfClear(v: string, printable: char -> bool, known: Escapes): Option<Value> {
    if Clear(v, printable, known) then Some(Text(v)) else None
  }

  lemma QuoteReads(v: string, printable: char -> bool, known: Escapes)
    ensures Reads(Quote(v, printable), known, IfClear(v, printable, known))
  {
    hide Clear, ReadText;
    TextBack(v, printable, known, "");
    assert Quote(v, printable) + "" == Quote(v, printable);
  }

  lemma DecimalReads(n: int, known: Escapes)
    ensures Reads(Decimal(n), known, Some(Number(n)))
  {
    NumberReadsBack(n);
  }

  lemma ScopesRead(scopes: seq<string>, printable: char -> bool, known: Escapes)
    requires scopes != []
    ensures Reads("[" + QuotedList(scopes, printable) + "]", known,
      if AllClear(scopes, printable, known) then Some(Texts(scopes)) else None)
  {
    hide AllClear, ReadList;
    var vt := "[" + QuotedList(scopes, printable) + "]";
    ListBack(scopes, printable, known);
    assert vt[1..] == QuotedList(scopes, printable) + "]";
  }

  /** What can be made out of a profile by a reader that passes over values it cannot read. */
  ghost function Seen(p: Profile, printable: char -> bool, known: Escapes): Profile {
    Profile(
      if Clear(p.url, printable, known) then p.url else "",
      if Clear(p.clientID, printable, known) then p.clientID else "",
      p.callbackPort,
      if AllClear(p.scopes, printable, known) then p.scopes else [],
      if Clear(p.issuer, printable, known) then p.issuer else "",
      if Clear(p.bearerEnv, printable, known) then p.bearerEnv else "",
      SeenHeaders(p.headers, printable, known))
  }

  ghost function SeenHeaders(headers: seq<(string, string)>, printable: char -> bool, known: Escapes): seq<(string, string)>
    decreases |headers|
  {
    if headers == [] then []
    else
      var last := |headers| - 1;
      SeenHeaders(headers[..last], printable, known)
        + if Clear(headers[last].0, printable, known) && Clear(headers[last].1, printable, known) then [headers[last]] else []
  }

  lemma SettingKeys()
    ensures PlainSetting("url") && PlainSetting("clientID") && PlainSetting("callbackPort")
    ensures PlainSetting("scopes") && PlainSetting("issuer") && PlainSetting("bearerEnv")
  {
  }

  lemma SettingsRead(p: Profile, printable: char -> bool, name: string, known: Escapes)
    ensures ReadLines(Settings(p, printable), name, known, Reading(Main, NOTHING)) ==
      Reading(Main, Seen(p, printable, known).(headers := []))
  {
    var o1 := Optional(true, "url" + " = " + Quote(p.url, printable));
    var o2 := Optional(p.clientID != "", "clientID" + " = " + Quote(p.clientID, printable));
    var o3 := Optional(p.callbackPort != 0, "callbackPort" + " = " + Decimal(p.callbackPort));
    var o4 := Optional(|p.scopes| > 0, "scopes" + " = " + ("[" + QuotedList(p.scopes, printable) + "]"));
    var o5 := Optional(p.issuer != "", "issuer" + " = " + Quote(p.issuer, printable));
    var o6 := Optional(p.bearerEnv != "", "bearerEnv" + " = " + Quote(p.bearerEnv, printable));
    hide Optional, ReadLines, Reads, Clear, Quote, Decimal, QuotedList, PlainSetting;
    SettingKeys();
    var q := Seen(p, printable, known).(headers := []);
    var r1 := NOTHING.(url := q.url);
    var r2 := r1.(clientID := q.clientID);
    var r3 := r2.(callbackPort := q.callbackPort);
    var r4 := r3.(scopes := q.scopes);
    var r5 := r4.(issuer := q.issuer);
    QuoteReads(p.url, printable, known);
    OptionalRead(true, "url", Quote(p.url, printable), IfClear(p.url, printable, known), name, known, NOTHING);
    QuoteReads(p.clientID, printable, known);
    OptionalRead(p.clientID != "", "clientID", Quote(p.clientID, printable), IfClear(p.clientID, printable, known), name, known, r1);
    DecimalReads(p.callbackPort, known);
    OptionalRead(p.callbackPort != 0, "callbackPort", Decimal(p.callbackPort), Some(Number(p.callbackPort)), name, known, r2);
    var list := if AllClear(p.scopes, printable, known) then Some(Texts(p.scopes)) else None;
    if p.scopes != [] {
      ScopesRead(p.scopes, printable, known);
    }
    OptionalRead(|p.scopes| > 0, "scopes", "[" + QuotedList(p.scopes, printable) + "]", list, name, known, r3);
    QuoteReads(p.issuer, printable, known);
    OptionalRead(p.issuer != "", "issuer", Quote(p.issuer, printable), IfClear(p.issuer, printable, known), name, known, r4);
    QuoteReads(p.bearerEnv, printable, known);
    OptionalRead(p.bearerEnv != "", "bearerEnv", Quote(p.bearerEnv, printable), IfClear(p.bearerEnv, printable, known), name, known, r5);
    ReadAppend(o1 + o2 + o3 + o4 + o5, o6, name, known, Reading(Main, NOTHING));
    ReadAppend(o1 + o2 + o3 + o4, o5, name, known, Reading(Main, NOTHING));
    ReadAppend(o1 + o2 + o3, o4, name, known, Reading(Main, NOTHING));
    ReadAppend(o1 + o2, o3, name, known, Reading(Main, NOTHING));
    ReadAppend(o1, o2, name, known, Reading(Main, NOTHING));
  }

  lemma HeaderRead(key: string, value: string, printable: char -> bool, name: string, known: Escapes, p: Profile)
    ensures ReadLine("  " + (Quote(key, printable) + " = " + Quote(value, printable)) + "\n", name, known, Reading(Headers, p)) ==
      Reading(Headers, p.(headers := p.headers +
        if Clear(key, printable, known) && Clear(value, printable, known) then [(key, value)] else []))
  {
    hide ReadValue, ReadEntry, TableKey, Note, TrimSpace, Clear, Quote, ReadText;
    var k, vt := Quote(key, printable), Quote(value, printable);
    TextBack(key, printable, known, " = " + vt);
    TextBack(value, printable, known, "");
    QuoteReads(value, printable, known);
    EntryLine("  ", k, vt, name);
    assert k + " = " + vt == k + (" = " + vt);
    HeaderEntry(k, key, vt, known, IfClear(value, printable, known), Clear(key, printable, known));
    assert p.headers + [] == p.headers;
  }

  lemma HeaderEntry(k: string, key: string, vt: string, known: Escapes, v: Option<Value>, clear: bool)
    requires k != "" && k[0] == '"' && Reads(vt, known, v)
    requires ReadText((k + (" = " + vt))[1..], known) == if clear then Read(key, " = " + vt) else Fail
    ensures ReadEntry(k + " = " + vt, known) == if clear && v.Some? then Some(Entry(key, v.value)) else None
  {
    hide ReadText, ReadValue;
    assert k + " = " + vt == k + (" = " + vt);
    if clear {
      EntryBack(k, key, vt, known, v);
    }
  }

  lemma {:induction false} HeadersRead(headers: seq<(string, string)>, printable: char -> bool, name: string, known: Escapes, p: Profile)
    ensures ReadLines(HeaderLines(headers, printable), name, known, Reading(Headers, p)) ==
      Reading(Headers, p.(headers := p.headers + SeenHeaders(headers, printable, known)))
    decreases |headers|
  {
    hide ReadLine, Clear, Quote;
    if headers == [] {
      assert p.headers + [] == p.headers;
    } else {
      var last := |headers| - 1;
      var before, h := headers[..last], headers[last];
      var line := "  " + (Quote(h.0, printable) + " = " + Quote(h.1, printable)) + "\n";
      HeadersRead(before, printable, name, known, p);
      ReadAppend(HeaderLines(before, printable), [line], name, known, Reading(Headers, p));
      var q := p.(headers := p.headers + SeenHeaders(before, printable, known));
      HeaderRead(h.0, h.1, printable, name, known, q);
      assert [line][1..] == [];
      var more := if Clear(h.0, printable, known) && Clear(h.1, printable, known) then [h] else [];
      assert (p.headers + SeenHeaders(before, printable, known)) + more == p.headers + (SeenHeaders(before, printable, known) + more);
    }
  }

  // ----- whose lines they are -----

  /** A plain name is a part of its own in a dotted key. */
  lemma TitlePlace(name: string, known: Escapes, r: Reading)
    requires PlainName(name)
    ensures ReadLine(TitleLine(name), name, known, r) == r.(place := Main)
  {
    hide TableKey, Parts, TrimSpace, Note, Dotted, PlainName;
    var key := [Segment("profiles", None), Segment(name, None)];
    DottedWords(name);
    NoBracket(name);
    TitleKey("", name, key, "profiles." + name);
    assert "" + "[" + ("profiles." + name) + "]" + "\n" == TitleLine(name);
    TrimmedWord();
    TwoTexts(key);
  }

  lemma HeadersPlace(name: string, known: Escapes, r: Reading)
    requires PlainName(name)
    ensures ReadLine(HeadersTitleLine(name), name, known, r) == r.(place := Headers)
  {
    hide TableKey, Parts, TrimSpace, Note, Dotted, PlainName;
    var key := [Segment("profiles", None), Segment(name, None), Segment("headers", None)];
    DottedWords(name);
    NoBracket(name);
    TitleKey("  ", name, key, "profiles." + name + ".headers");
    assert "  " + "[" + ("profiles." + name + ".headers") + "]" + "\n" == HeadersTitleLine(name);
    TrimmedWord();
    TrimmedHeadersWord();
    ThreeTexts(key);
  }

  lemma DottedWords(name: string)
    ensures Dotted([Segment("profiles", None), Segment(name, None)]) == "profiles." + name
    ensures Dotted([Segment("profiles", None), Segment(name, None), Segment("headers", None)]) == "profiles." + name + ".headers"
  {
    var p, n, h := Segment("profiles", None), Segment(name, None), Segment("headers", None);
    assert [p, n][1..] == [n] && [p, n, h][1..] == [n, h] && [n, h][1..] == [h];
    assert Dotted([n, h]) == name + "." + "headers";
    assert "profiles" + "." + (name + "." + "headers") == "profiles." + name + ".headers";
  }

  lemma TrimmedHeadersWord()
    ensures TrimSpace("headers") == "headers"
  {
  }

  lemma TwoTexts(key: seq<Segment>)
    requires |key| == 2
    ensures PartTexts(key) == [TrimSpace(key[0].text), TrimSpace(key[1].text)]
  {
    hide TrimSpace;
    assert key[1..][0] == key[1] && key[1..][1..] == [];
    assert PartTexts(key[1..][1..]) == [];
    assert PartTexts(key[1..]) == [TrimSpace(key[1].text)];
  }

  lemma ThreeTexts(key: seq<Segment>)
    requires |key| == 3
    ensures PartTexts(key) == [TrimSpace(key[0].text), TrimSpace(key[1].text), TrimSpace(key[2].text)]
  {
    hide TrimSpace;
    TwoTexts(key[1..]);
  }

  lemma TitleKey(indent: string, name: string, key: seq<Segment>, text: string)
    requires PlainName(name) && Spaces(indent) && key != [] && Dotted(key) == text
    requires forall k :: 0 <= k < |key| ==> key[k].quote.None? && key[k].text in ["profiles", name, "headers"]
    requires ']' !in text
    ensures var line := indent + "[" + text + "]" + "\n";
      !Note(line) && TableKey(line).Some? && Parts(TableKey(line).value, "", None) == PartTexts(key)
  {
    hide TableKey, Parts, TrimSpace, Dotted, PartTexts;
    forall k | 0 <= k < |key|
      ensures WellQuoted(key[k])
    {
      PlainWords(name, key[k].text);
    }
    HeaderIs(indent, text, "\n");
    TrimmedKey(text);
    KeyReadsBack(key);
    NotANote(indent + "[" + text + "]" + "\n");
  }

  lemma NoBracket(name: string)
    requires PlainName(name)
    ensures ']' !in "profiles." + name && ']' !in "profiles." + name + ".headers" && TrimSpace(name) == name
    ensures Spaces("") && Spaces("  ")
  {
  }

  lemma PlainWords(name: string, text: string)
    requires PlainName(name) && text in ["profiles", name, "headers"]
    ensures forall c :: c in text ==> c != '.' && !IsQuote(c)
  {
  }

  lemma NotANote(line: string)
    requires TableKey(line).Some?
    ensures !Note(line)
  {
  }

  /** A header of a profile is nobody else's. */
  lemma OwnPlaces(line: string, name: string, m: string, known: Escapes, r: Reading)
    requires Own(line, name) && m != name
    ensures ReadLine(line, m, known, r) == r.(place := Elsewhere)
  {
    NotANote(line);
  }

  lemma ForeignPlaces(line: string, name: string, known: Escapes, r: Reading)
    requires Foreign(line, name)
    ensures ReadLine(line, name, known, r) == r.(place := Elsewhere)
  {
    NotANote(line);
  }
}
