/**
  A reader of one profile's tables in a config file: quoted strings with their
  escapes, decimal numbers, lists of strings, `key = value` lines, and headers
  that say whose lines they are.  It knows nothing of how profiles are printed;
  what the file means is settled here.
*/
module ProfileReader {
  import opened Wrappers
  import opened TextLines
  import opened TomlEdit
  import opened Install

  // ----- values -----

  function HexValue(c: char): Option<nat> {
    if '0' <= c <= '9' then Some((c as int - '0' as int) as nat)
    else if 'a' <= c <= 'f' then Some((c as int - 'a' as int + 10) as nat)
    else if 'A' <= c <= 'F' then Some((c as int - 'A' as int + 10) as nat)
    else None
  }

  function ReadHex(s: string, n: nat): Option<nat> {
    if s == "" then Some(n)
    else if HexValue(s[0]).None? then None
    else ReadHex(s[1..], n * 16 + HexValue(s[0]).value)
  }

  function Scalar(n: nat): Option<char> {
    if n < 0xD800 || 0xE000 <= n < 0x11_0000 then Some(n as char) else None
  }

  function ReadCode(s: string, width: nat): Option<char> {
    if |s| < width || ReadHex(s[..width], 0).None? then None else Scalar(ReadHex(s[..width], 0).value)
  }

  /** The escapes a reader knows beside those of TOML 1.0.0: \a and \v, and two hexadecimal digits behind \x. */
  datatype Escapes = Escapes(letters: bool, hex: bool)

  const GO_STRING := Escapes(true, true)
  const TOML_1_0 := Escapes(false, false)
  const TOML_1_1 := Escapes(false, true)

  /** The escape at the front of s, behind its backslash, and how long it is. */
  function ReadEscape(s: string, known: Escapes): (r: Option<(char, nat)>)
    requires s != ""
    ensures r.Some? ==> r.value.1 <= |s|
  {
    match s[0]
    case '"' => Some(('"', 1))
    case '\\' => Some(('\\', 1))
    case 'a' => if known.letters then Some(('\U{7}', 1)) else None
    case 'b' => Some(('\U{8}', 1))
    case 't' => Some(('\t', 1))
    case 'n' => Some(('\n', 1))
    case 'v' => if known.letters then Some(('\U{B}', 1)) else None
    case 'f' => Some(('\U{C}', 1))
    case 'r' => Some(('\r', 1))
    case 'x' => if known.hex then Coded(s, 2) else None
    case 'u' => Coded(s, 4)
    case 'U' => Coded(s, 8)
    case _ => None
  }

  function Coded(s: string, width: nat): (r: Option<(char, nat)>)
    requires s != ""
    ensures r.Some? ==> r.value.1 <= |s|
  {
    var c := ReadCode(s[1..], width);
    if c.Some? then Some((c.value, width + 1)) else None
  }

  /** Something read at the front of a text, and the rest of it. */
  datatype Result<T> = Fail | Read(value: T, rest: string)

  /** A string, behind its opening quote. */
  function ReadText(s: string, known: Escapes): (r: Result<string>)
    ensures r.Read? ==> |r.rest| < |s|
    decreases |s|
  {
    if s == "" then Fail
    else if s[0] == '"' then Read("", s[1..])
    else if s[0] != '\\' then Put(s[0], ReadText(s[1..], known))
    else if |s| == 1 || ReadEscape(s[1..], known).None? then Fail
    else
      var e := ReadEscape(s[1..], known).value;
      Put(e.0, ReadText(s[1 + e.1..], known))
  }

  function Put(c: char, r: Result<string>): Result<string> {
    if r.Fail? then Fail else Read([c] + r.value, r.rest)
  }

  predicate Digit(c: char) { '0' <= c <= '9' }

  function ReadDigits(s: string, n: nat): (r: Result<nat>)
    ensures r.Read?
  {
    if s != "" && Digit(s[0]) then ReadDigits(s[1..], n * 10 + (s[0] as int - '0' as int)) else Read(n, s)
  }

  function ReadNumber(s: string): Result<int> {
    if s != "" && s[0] == '-' then
      if |s| > 1 && Digit(s[1]) then var r := ReadDigits(s[1..], 0); Read(0 - r.value as int, r.rest) else Fail
    else if s != "" && Digit(s[0]) then
      var r := ReadDigits(s, 0); Read(r.value, r.rest)
    else Fail
  }

  /** The strings of a list, behind its opening bracket or a comma. */
  function ReadList(s: string, known: Escapes): Result<seq<string>>
    decreases |s|
  {
    TrimLeftShortens(s);
    var t := TrimLeft(s);
    if t == "" then Fail
    else if t[0] == ']' then Read([], t[1..])
    else if t[0] != '"' then Fail
    else
      var first := ReadText(t[1..], known);
      if first.Fail? then Fail
      else
        TrimLeftShortens(first.rest);
        var u := TrimLeft(first.rest);
        if u == "" then Fail
        else if u[0] == ']' then Read([first.value], u[1..])
        else if u[0] != ',' then Fail
        else
          var more := ReadList(u[1..], known);
          if more.Fail? then Fail else Read([first.value] + more.value, more.rest)
  }

  datatype Value = Text(text: string) | Number(number: int) | Texts(texts: seq<string>)

  function ReadValue(s: string, known: Escapes): Result<Value> {
    if s == "" then Fail
    else if s[0] == '"' then match ReadText(s[1..], known) { case Fail => Fail case Read(v, rest) => Read(Text(v), rest) }
    else if s[0] == '[' then match ReadList(s[1..], known) { case Fail => Fail case Read(v, rest) => Read(Texts(v), rest) }
    else match ReadNumber(s) { case Fail => Fail case Read(v, rest) => Read(Number(v), rest) }
  }

  // ----- lines -----

  predicate BareChar(c: char) { 'a' <= c <= 'z' || 'A' <= c <= 'Z' || Digit(c) || c == '_' || c == '-' }

  function BareLength(s: string): (k: nat)
    ensures k <= |s|
  {
    if s != "" && BareChar(s[0]) then 1 + BareLength(s[1..]) else 0
  }

  function ReadKey(s: string, known: Escapes): Result<string> {
    if s != "" && s[0] == '"' then ReadText(s[1..], known)
    else var k := BareLength(s); if k == 0 then Fail else Read(s[..k], s[k..])
  }

  datatype Entry = Entry(key: string, value: Value)

  /** Nothing but a comment is left. */
  predicate Exhausted(s: string) { TrimLeft(s) == "" || TrimLeft(s)[0] == '#' }

  /** A `key = value` line, trimmed. */
  function ReadEntry(s: string, known: Escapes): Option<Entry> {
    var key := ReadKey(s, known);
    if key.Fail? then None
    else
      var t := TrimLeft(key.rest);
      if t == "" || t[0] != '=' then None
      else
        var value := ReadValue(TrimLeft(t[1..]), known);
        if value.Fail? || !Exhausted(value.rest) then None else Some(Entry(key.value, value.value))
  }

  // ----- a profile -----

  /** In whose table a line stands: the profile's own, that of its headers, or somebody else's. */
  datatype Place = Elsewhere | Main | Headers

  datatype Reading = Reading(place: Place, profile: Profile)

  const NOTHING := Profile("", "", 0, [], "", "", [])

  function PlaceOf(parts: seq<string>, name: string): Place {
    if parts == ["profiles", name] then Main
    else if parts == ["profiles", name, "headers"] then Headers
    else Elsewhere
  }

  /** A setting of the profile; what is not known is passed over. */
  function Set(p: Profile, e: Entry): Profile {
    match e
    case Entry("url", Text(v)) => p.(url := v)
    case Entry("clientID", Text(v)) => p.(clientID := v)
    case Entry("callbackPort", Number(v)) => p.(callbackPort := v)
    case Entry("scopes", Texts(v)) => p.(scopes := v)
    case Entry("issuer", Text(v)) => p.(issuer := v)
    case Entry("bearerEnv", Text(v)) => p.(bearerEnv := v)
    case _ => p
  }

  function ReadLine(line: string, name: string, known: Escapes, r: Reading): Reading {
    if Note(line) then r
    else if TableKey(line).Some? then r.(place := PlaceOf(Parts(TableKey(line).value, "", None), name))
    else
      var e := ReadEntry(TrimSpace(line), known);
      match r.place
      case Main => if e.Some? then r.(profile := Set(r.profile, e.value)) else r
      case Headers =>
        if e.Some? && e.value.value.Text? then
          r.(profile := r.profile.(headers := r.profile.headers + [(e.value.key, e.value.value.text)]))
        else r
      case Elsewhere => r
  }

  function ReadLines(lines: seq<string>, name: string, known: Escapes, r: Reading): Reading
    decreases |lines|
  {
    if lines == [] then r else ReadLines(lines[1..], name, known, ReadLine(lines[0], name, known, r))
  }

  /** What a config file says about a profile. */
  function ReadProfile(text: string, name: string, known: Escapes): Profile {
    ReadLines(SplitAfter(text), name, known, Reading(Elsewhere, NOTHING)).profile
  }

  // ----- what is printed is read back -----

  lemma DigitBack(n: nat)
    requires n < 16
    ensures HexValue(HexDigit(n)) == Some(n)
    ensures n < 10 ==> Digit(HexDigit(n)) && HexDigit(n) as int - '0' as int == n
  {
  }

  function Pow16(width: nat): nat { if width == 0 then 1 else 16 * Pow16(width - 1) }

  lemma {:induction false} HexBack(n: nat, width: nat, more: string)
    requires n < Pow16(width)
    ensures |Hex(n, width)| == width
    ensures ReadHex(Hex(n, width) + more, 0) == ReadHex(more, n)
    decreases width
  {
    if width == 0 {
      assert "" + more == more;
    } else {
      var d := HexDigit(n % 16);
      HexBack(n / 16, width - 1, [d] + more);
      DigitBack(n % 16);
      assert Hex(n, width) + more == Hex(n / 16, width - 1) + ([d] + more);
      assert ([d] + more)[1..] == more;
    }
  }

  lemma CodeBack(c: char, width: nat, more: string)
    requires c as nat < Pow16(width)
    ensures ReadCode(Hex(c as nat, width) + more, width) == Some(c)
  {
    var h := Hex(c as nat, width);
    HexBack(c as nat, width, "");
    assert h + "" == h && (h + more)[..width] == h;
  }

  lemma CodedBack(letter: char, c: char, width: nat, more: string)
    requires c as nat < Pow16(width)
    ensures Coded([letter] + Hex(c as nat, width) + more, width) == Some((c, width + 1))
    ensures ([letter] + Hex(c as nat, width) + more)[width + 1..] == more
  {
    var s := [letter] + Hex(c as nat, width) + more;
    CodeBack(c, width, more);
    HexBack(c as nat, width, "");
    assert s[1..] == Hex(c as nat, width) + more;
  }

  lemma Widths()
    ensures Pow16(2) == 0x100 && Pow16(4) == 0x1_0000 && Pow16(8) == 0x1_0000_0000
  {
    assert Pow16(1) == 16 && Pow16(3) == 0x1000;
    assert Pow16(5) == 0x10_0000 && Pow16(6) == 0x100_0000 && Pow16(7) == 0x1000_0000;
  }

  /** A character that has a letter of its own behind the backslash. */
  predicate Lettered(c: char) { c in "\"\\\U{7}\U{8}\U{C}\n\r\t\U{B}" }

  predicate Control(c: char) { c < ' ' || c == '\U{7F}' }

  /**
    The reader can make out the character as it is printed: a bell or a vertical
    tab if it knows their letters, any other control character that has no
    letter if it knows \x.
  */
  predicate Known(c: char, printable: char -> bool, known: Escapes) {
    && (c == '\U{7}' || c == '\U{B}' ==> known.letters)
    && (Control(c) && !Lettered(c) && !printable(c) ==> known.hex)
  }

  ghost predicate ReadsBack(c: char, printable: char -> bool, known: Escapes, more: string) {
    ReadText(Escape(c, printable) + more, known) == if Known(c, printable, known) then Put(c, ReadText(more, known)) else Fail
  }

  lemma PlainBack(c: char, printable: char -> bool, known: Escapes, more: string)
    requires !Lettered(c) && printable(c)
    ensures ReadsBack(c, printable, known, more)
  {
    assert ([c] + more)[1..] == more;
  }

  lemma LetterBack(c: char, printable: char -> bool, known: Escapes, more: string)
    requires Lettered(c)
    ensures ReadsBack(c, printable, known, more)
  {
    hide Hex, Coded, HexDigit;
    var e := Escape(c, printable);
    assert |e| == 2 && e[0] == '\\';
    assert (e + more)[1..] == [e[1]] + more && (e + more)[2..] == more;
  }

  lemma NumberBack(c: char, printable: char -> bool, known: Escapes, more: string)
    requires !Lettered(c) && !printable(c)
    ensures ReadsBack(c, printable, known, more)
  {
    hide Hex, Coded, HexDigit;
    Widths();
    var width := if Control(c) then 2 else if c < '\U{10000}' then 4 else 8;
    var letter := if Control(c) then 'x' else if c < '\U{10000}' then 'u' else 'U';
    var s := Escape(c, printable) + more;
    CodedBack(letter, c, width, more);
    assert s == ['\\'] + ([letter] + Hex(c as nat, width) + more);
    assert s[1..] == [letter] + Hex(c as nat, width) + more;
    assert s[1 + (width + 1)..] == s[1..][width + 1..];
  }

  /** Every character, printed as it may be, is read back. */
  lemma CharBack(c: char, printable: char -> bool, known: Escapes, more: string)
    ensures ReadsBack(c, printable, known, more)
  {
    hide ReadsBack;
    if Lettered(c) {
      LetterBack(c, printable, known, more);
    } else if printable(c) {
      PlainBack(c, printable, known, more);
    } else {
      NumberBack(c, printable, known, more);
    }
  }

  lemma Regroup(a: string, b: string, c: string, d: string)
    ensures (a + b) + c + d == a + (b + c + d)
  {
  }

  /** A quoted string is read back exactly when the reader knows the escapes it needs; with those of Go it always is. */
  lemma {:induction false} QuoteReadsBackWhen(v: string, printable: char -> bool, known: Escapes, rest: string)
    ensures ReadText(Escaped(v, printable) + "\"" + rest, known) ==
      if forall c :: c in v ==> Known(c, printable, known) then Read(v, rest) else Fail
  {
    if v == "" {
      assert ("" + "\"" + rest)[1..] == rest;
    } else {
      QuoteReadsBackWhen(v[1..], printable, known, rest);
      FirstCharBack(v, printable, known, rest);
    }
  }

  lemma FirstCharBack(v: string, printable: char -> bool, known: Escapes, rest: string)
    requires v != ""
    ensures ReadText(Escaped(v, printable) + "\"" + rest, known) ==
      if Known(v[0], printable, known) then Put(v[0], ReadText(Escaped(v[1..], printable) + "\"" + rest, known)) else Fail
    ensures (forall c :: c in v ==> Known(c, printable, known)) <==>
      Known(v[0], printable, known) && forall c :: c in v[1..] ==> Known(c, printable, known)
    ensures v == [v[0]] + v[1..]
  {
    hide Escape, Known, ReadText;
    Regroup(Escape(v[0], printable), Escaped(v[1..], printable), "\"", rest);
    CharBack(v[0], printable, known, Escaped(v[1..], printable) + "\"" + rest);
    assert v == [v[0]] + v[1..];
  }
}
