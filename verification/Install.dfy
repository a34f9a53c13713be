/**
  Installing and uninstalling a profile (pkg/app/install.go): the block that
  is printed for it, and what becomes of the text of config.toml.
*/
module Install {
  import opened Wrappers
  import opened TextLines
  import opened TomlEdit
  import opened TomlTheorems

  /** Headers in the order of their names. */
  datatype Profile = Profile(
    url: string, clientID: string, callbackPort: int, scopes: seq<string>, issuer: string, bearerEnv: string,
    headers: seq<(string, string)>)

  // ----- %q and %d -----

  function HexDigit(n: nat): char
    requires n < 16
  {
    "0123456789abcdef"[n]
  }

  function Hex(n: nat, width: nat): (s: string)
    ensures '\n' !in s
    decreases width
  {
    if width == 0 then "" else Hex(n / 16, width - 1) + [HexDigit(n % 16)]
  }

  /** One character of a quoted string; `printable` is strconv.IsPrint, false for all that have a letter here. */
  function Escape(c: char, printable: char -> bool): (s: string)
    ensures '\n' !in s
  {
    if c == '"' || c == '\\' then ['\\', c]
    else if c == '\U{7}' then "\\a"
    else if c == '\U{8}' then "\\b"
    else if c == '\U{C}' then "\\f"
    else if c == '\n' then "\\n"
    else if c == '\r' then "\\r"
    else if c == '\t' then "\\t"
    else if c == '\U{B}' then "\\v"
    else if printable(c) then [c]
    else if c < ' ' || c == '\U{7F}' then "\\x" + Hex(c as nat, 2)
    else if c < '\U{10000}' then "\\u" + Hex(c as nat, 4)
    else "\\U" + Hex(c as nat, 8)
  }

  function Escaped(s: string, printable: char -> bool): (r: string)
    ensures '\n' !in r
  {
    if s == "" then "" else Escape(s[0], printable) + Escaped(s[1..], printable)
  }

  function Quote(s: string, printable: char -> bool): (r: string)
    ensures r != "" && r[0] == '"' && '\n' !in r
  {
    "\"" + Escaped(s, printable) + "\""
  }

  function Decimal(n: int): (s: string)
    ensures '\n' !in s
    decreases if n < 0 then 1 - n else n
  {
    if n < 0 then "-" + Decimal(-n)
    else if n < 10 then [HexDigit(n)]
    else Decimal(n / 10) + [HexDigit(n % 10)]
  }

  // ----- the block -----

  function QuotedList(scopes: seq<string>, printable: char -> bool): (s: string)
    ensures '\n' !in s
    decreases |scopes|
  {
    if scopes == [] then ""
    else if |scopes| == 1 then Quote(scopes[0], printable)
    else QuotedList(scopes[..|scopes| - 1], printable) + ", " + Quote(scopes[|scopes| - 1], printable)
  }

  function Optional(shown: bool, line: string): seq<string> {
    if shown then [line + "\n"] else []
  }

  function HeaderLines(headers: seq<(string, string)>, printable: char -> bool): seq<string>
    decreases |headers|
  {
    if headers == [] then []
    else
      var last := |headers| - 1;
      HeaderLines(headers[..last], printable)
        + ["  " + (Quote(headers[last].0, printable) + " = " + Quote(headers[last].1, printable)) + "\n"]
  }

  function TitleLine(name: string): string { "[profiles." + name + "]\n" }

  function HeadersTitleLine(name: string): string { "  [profiles." + name + ".headers]\n" }

  /** The settings under the profile's own header. */
  function Settings(p: Profile, printable: char -> bool): seq<string> {
    Optional(true, "url" + " = " + Quote(p.url, printable))
      + Optional(p.clientID != "", "clientID" + " = " + Quote(p.clientID, printable))
      + Optional(p.callbackPort != 0, "callbackPort" + " = " + Decimal(p.callbackPort))
      + Optional(|p.scopes| > 0, "scopes" + " = " + ("[" + QuotedList(p.scopes, printable) + "]"))
      + Optional(p.issuer != "", "issuer" + " = " + Quote(p.issuer, printable))
      + Optional(p.bearerEnv != "", "bearerEnv" + " = " + Quote(p.bearerEnv, printable))
  }

  function Block(name: string, p: Profile, printable: char -> bool): seq<string> {
    ["\n", TitleLine(name)] + Settings(p, printable)
      + if p.headers == [] then [] else ["\n", HeadersTitleLine(name)] + HeaderLines(p.headers, printable)
  }

  lemma Grow(lines: seq<string>, line: string)
    ensures Join(lines + [line]) == Join(lines) + line
  {
    JoinAppends(lines, [line]);
    One(line);
  }

  /** profileTOML */
  method ProfileTOML(name: string, p: Profile, printable: char -> bool) returns (b: string)
    ensures b == Join(Block(name, p, printable))
  {
    hide Join, Settings, HeaderLines;
    ghost var top := ["\n", TitleLine(name)];
    b := "\n" + "[profiles." + name + "]\n";
    assert b == Join(top) by {
      Two("\n", TitleLine(name));
      assert b == "\n" + ("[profiles." + name + "]\n");
    }
    b := AppendSettings(b, top, p, printable);
    if |p.headers| > 0 {
      ghost var lines := top + Settings(p, printable);
      b := b + "\n" + "  [profiles." + name + ".headers]\n";
      Grow(lines, "\n");
      Grow(lines + ["\n"], HeadersTitleLine(name));
      ghost var titled := lines + ["\n"] + [HeadersTitleLine(name)];
      assert Join(titled) == Join(lines) + "\n" + HeadersTitleLine(name);
      assert b == Join(titled);
      b := AppendHeaders(b, titled, p.headers, printable);
      assert titled + HeaderLines(p.headers, printable) == lines + (["\n", HeadersTitleLine(name)] + HeaderLines(p.headers, printable));
    } else {
      assert top + Settings(p, printable) + [] == top + Settings(p, printable);
    }
  }

  /** One optional `key = value` line. */
  method AppendLine(b: string, ghost lines: seq<string>, shown: bool, key: string, value: string) returns (r: string)
    requires b == Join(lines)
    ensures r == Join(lines + Optional(shown, key + " = " + value))
  {
    r := b;
    if shown {
      r := b + key + " = " + value + "\n";
      Grow(lines, (key + " = " + value) + "\n");
      assert r == b + ((key + " = " + value) + "\n");
    } else {
      assert lines + [] == lines;
    }
  }

  method AppendSettings(b: string, ghost lines: seq<string>, p: Profile, printable: char -> bool) returns (r: string)
    requires b == Join(lines)
    ensures r == Join(lines + Settings(p, printable))
  {
    hide Join, Optional;
    ghost var o1 := Optional(true, "url" + " = " + Quote(p.url, printable));
    ghost var o2 := Optional(p.clientID != "", "clientID" + " = " + Quote(p.clientID, printable));
    ghost var o3 := Optional(p.callbackPort != 0, "callbackPort" + " = " + Decimal(p.callbackPort));
    ghost var o4 := Optional(|p.scopes| > 0, "scopes" + " = " + ("[" + QuotedList(p.scopes, printable) + "]"));
    ghost var o5 := Optional(p.issuer != "", "issuer" + " = " + Quote(p.issuer, printable));
    ghost var o6 := Optional(p.bearerEnv != "", "bearerEnv" + " = " + Quote(p.bearerEnv, printable));
    r := AppendLine(b, lines, true, "url", Quote(p.url, printable));
    r := AppendLine(r, lines + o1, p.clientID != "", "clientID", Quote(p.clientID, printable));
    r := AppendLine(r, lines + o1 + o2, p.callbackPort != 0, "callbackPort", Decimal(p.callbackPort));
    var quoted := JoinQuoted(p.scopes, printable);
    r := AppendLine(r, lines + o1 + o2 + o3, |p.scopes| > 0, "scopes", "[" + quoted + "]");
    r := AppendLine(r, lines + o1 + o2 + o3 + o4, p.issuer != "", "issuer", Quote(p.issuer, printable));
    r := AppendLine(r, lines + o1 + o2 + o3 + o4 + o5, p.bearerEnv != "", "bearerEnv", Quote(p.bearerEnv, printable));
    assert lines + o1 + o2 + o3 + o4 + o5 + o6 == lines + (o1 + o2 + o3 + o4 + o5 + o6);
  }

  lemma HeaderText(before: string, name: string, value: string)
    ensures before + "  " + name + " = " + value + "\n" == before + ("  " + (name + " = " + value) + "\n")
  {
  }

  method AppendHeaders(b: string, ghost lines: seq<string>, headers: seq<(string, string)>, printable: char -> bool)
    returns (r: string)
    requires b == Join(lines)
    ensures r == Join(lines + HeaderLines(headers, printable))
  {
    hide Join, Quote;
    r := b;
    assert lines + [] == lines;
    var k := 0;
    while k < |headers|
      invariant k <= |headers| && r == Join(lines + HeaderLines(headers[..k], printable))
    {
      var name, value := Quote(headers[k].0, printable), Quote(headers[k].1, printable);
      ghost var line := "  " + (name + " = " + value) + "\n";
      HeaderText(r, name, value);
      assert headers[..k + 1][..k] == headers[..k];
      Grow(lines + HeaderLines(headers[..k], printable), line);
      assert lines + HeaderLines(headers[..k + 1], printable) == (lines + HeaderLines(headers[..k], printable)) + [line];
      r := r + "  " + name + " = " + value + "\n";
      k := k + 1;
    }
    assert headers[..k] == headers;
  }

  method JoinQuoted(scopes: seq<string>, printable: char -> bool) returns (s: string)
    ensures s == QuotedList(scopes, printable)
  {
    s := "";
    var k := 0;
    while k < |scopes|
      invariant k <= |scopes| && s == QuotedList(scopes[..k], printable)
    {
      assert scopes[..k + 1][..k] == scopes[..k];
      s := if k == 0 then Quote(scopes[k], printable) else s + ", " + Quote(scopes[k], printable);
      k := k + 1;
    }
    assert scopes[..k] == scopes;
  }
}
