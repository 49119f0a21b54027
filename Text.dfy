/** String helpers standing in for the Python library calls the layout code
    uses: str.strip, str.lower, str.isalnum, str.join, str(int) and
    html.escape(s, quote=True). Character classes are ASCII only. */
module Text {

  /** Characters that Python's str.strip() removes, restricted to ASCII. */
  const Whitespace: set<char> :=
    {' ', '\t', '\n', '\r', '\U{0B}', '\U{0C}', '\U{1C}', '\U{1D}', '\U{1E}', '\U{1F}'}

  /** s with every leading character from `chars` removed (str.lstrip(chars)). */
  function TrimLeft(s: string, chars: set<char>): string
    decreases |s|
  {
    if |s| > 0 && s[0] in chars then TrimLeft(s[1..], chars) else s
  }

  /** s with every trailing character from `chars` removed (str.rstrip(chars)). */
  function TrimRight(s: string, chars: set<char>): string
    decreases |s|
  {
    if |s| > 0 && s[|s| - 1] in chars then TrimRight(s[..|s| - 1], chars) else s
  }

  /** lstrip keeps a suffix that does not start with a stripped character
      and removes only stripped characters. */
  lemma {:induction false} TrimLeftSuffix(s: string, chars: set<char>)
    ensures var r := TrimLeft(s, chars);
      && |r| <= |s| && r == s[|s| - |r|..]
      && (r == [] || r[0] !in chars)
      && (forall k | 0 <= k < |s| - |r| :: s[k] in chars)
    decreases |s|
  {
    if |s| > 0 && s[0] in chars {
      TrimLeftSuffix(s[1..], chars);
    }
  }

  /** rstrip keeps a prefix that does not end with a stripped character
      and removes only stripped characters. */
  lemma {:induction false} TrimRightPrefix(s: string, chars: set<char>)
    ensures var r := TrimRight(s, chars);
      && |r| <= |s| && r == s[..|r|]
      && (r == [] || r[|r| - 1] !in chars)
      && (forall k | |r| <= k < |s| :: s[k] in chars)
    decreases |s|
  {
    if |s| > 0 && s[|s| - 1] in chars {
      TrimRightPrefix(s[..|s| - 1], chars);
    }
  }

  /** str.strip(chars): both ends. */
  function StripChars(s: string, chars: set<char>): string
  {
    TrimRight(TrimLeft(s, chars), chars)
  }

  /** str.strip() with no argument. */
  function Strip(s: string): string
  {
    StripChars(s, Whitespace)
  }

  /** What stripping keeps is a contiguous slice of the input that neither
      starts nor ends with a stripped character, and everything cut off on
      either side is a stripped character. */
  lemma StripCharsSlice(s: string, chars: set<char>)
    ensures var r := StripChars(s, chars);
      exists i, j :: 0 <= i <= j <= |s| && r == s[i..j]
        && (forall k | 0 <= k < i :: s[k] in chars)
        && (forall k | j <= k < |s| :: s[k] in chars)
    ensures var r := StripChars(s, chars);
      r == [] || (r[0] !in chars && r[|r| - 1] !in chars)
  {
    var l := TrimLeft(s, chars);
    var r := TrimRight(l, chars);
    TrimLeftSuffix(s, chars);
    TrimRightPrefix(l, chars);
    var i := |s| - |l|;
    var j := i + |r|;
    assert r == s[i..j];
    assert forall k | j <= k < |s| :: s[k] == l[k - i];
  }

  /** Stripping twice is stripping once. */
  lemma StripCharsIdempotent(s: string, chars: set<char>)
    ensures StripChars(StripChars(s, chars), chars) == StripChars(s, chars)
  {
    var r := StripChars(s, chars);
    StripCharsSlice(s, chars);
    if r != [] {
      assert TrimLeft(r, chars) == r;
      assert TrimRight(r, chars) == r;
    }
    TrimLeftSuffix(r, chars);
    TrimRightPrefix(TrimLeft(r, chars), chars);
  }

  /** str.lower() on ASCII letters. */
  function Lower(c: char): (d: char)
    ensures 'A' <= c <= 'Z' ==> 'a' <= d <= 'z'
    ensures !('A' <= c <= 'Z') ==> d == c
  {
    if 'A' <= c <= 'Z' then (c as int - 'A' as int + 'a' as int) as char else c
  }

  /** str.isalnum() on ASCII characters. */
  predicate IsAlnum(c: char)
  {
    ('a' <= c <= 'z') || ('A' <= c <= 'Z') || ('0' <= c <= '9')
  }

  /** sep.join(parts). */
  function Join(sep: string, parts: seq<string>): string
    decreases |parts|
  {
    if |parts| == 0 then ""
    else if |parts| == 1 then parts[0]
    else parts[0] + sep + Join(sep, parts[1..])
  }

  /** The decimal digit for 0..9. */
  function Digit(d: nat): char
    requires d < 10
  {
    ('0' as int + d) as char
  }

  /** str(n) for a non-negative integer. */
  function Decimal(n: nat): (r: string)
    ensures |r| > 0
    ensures forall k | 0 <= k < |r| :: '0' <= r[k] <= '9'
  {
    if n < 10 then [Digit(n)] else Decimal(n / 10) + [Digit(n % 10)]
  }

  /** The replacement text html.escape(_, quote=True) uses for one character. */
  function EscChar(c: char): string
  {
    match c
    case '&' => "&amp;"
    case '<' => "&lt;"
    case '>' => "&gt;"
    case '"' => "&quot;"
    case '\'' => "&#x27;"
    case _ => [c]
  }

  /** html.escape(s, quote=True). */
  function Esc(s: string): string
    decreases |s|
  {
    if |s| == 0 then "" else EscChar(s[0]) + Esc(s[1..])
  }

  /** The characters html.escape rewrites. */
  const Special: set<char> := {'&', '<', '>', '"', '\''}

  /** A string none of whose characters html.escape rewrites. */
  predicate HtmlSafe(s: string)
  {
    forall k | 0 <= k < |s| :: s[k] !in Special
  }

  predicate StartsWith(t: string, p: string)
  {
    |p| <= |t| && t[..|p|] == p
  }

  /** What an HTML parser makes of attribute text, restricted to the five
      character references html.escape produces. */
  function Unescape(t: string): string
    decreases |t|
  {
    if |t| == 0 then ""
    else if t[0] != '&' then [t[0]] + Unescape(t[1..])
    else if StartsWith(t, "&amp;") then "&" + Unescape(t[5..])
    else if StartsWith(t, "&lt;") then "<" + Unescape(t[4..])
    else if StartsWith(t, "&gt;") then ">" + Unescape(t[4..])
    else if StartsWith(t, "&quot;") then "\"" + Unescape(t[6..])
    else if StartsWith(t, "&#x27;") then "'" + Unescape(t[6..])
    else [t[0]] + Unescape(t[1..])
  }

  lemma {:induction false} EscAppend(a: string, b: string)
    ensures Esc(a + b) == Esc(a) + Esc(b)
    decreases |a|
  {
    if |a| > 0 {
      assert (a + b)[0] == a[0] && (a + b)[1..] == a[1..] + b;
      EscAppend(a[1..], b);
      assert Esc(a + b) == EscChar(a[0]) + (Esc(a[1..]) + Esc(b));
    } else {
      assert a + b == b;
    }
  }

  /** Escaping leaves a string without special characters unchanged. */
  lemma {:induction false} EscSafe(s: string)
    requires HtmlSafe(s)
    ensures Esc(s) == s
    decreases |s|
  {
    if |s| > 0 {
      EscSafe(s[1..]);
    }
  }

  lemma UnescapeOneChar(c: char, rest: string)
    ensures Unescape(EscChar(c) + rest) == [c] + Unescape(rest)
  {
    if c in Special {
      UnescapeReference(c, rest);
    } else {
      var t := EscChar(c) + rest;
      assert t[0] == c && t[1..] == rest;
    }
  }

  /** Decoding the reference html.escape writes for a special character. */
  lemma UnescapeReference(c: char, rest: string)
    requires c in Special
    ensures Unescape(EscChar(c) + rest) == [c] + Unescape(rest)
  {
    var t := EscChar(c) + rest;
    if c == '&' {
      assert t[..5] == "&amp;" && t[5..] == rest;
    } else if c == '<' {
      assert t[1] == 'l' && t[..4] == "&lt;" && t[4..] == rest;
    } else if c == '>' {
      assert t[1] == 'g' && t[..4] == "&gt;" && t[4..] == rest;
    } else if c == '"' {
      assert t[1] == 'q' && t[..6] == "&quot;" && t[6..] == rest;
    } else {
      assert t[1] == '#' && t[..6] == "&#x27;" && t[6..] == rest;
    }
  }

  /** Decoding undoes html.escape: the browser shows exactly the text that
      was escaped once. */
  lemma {:induction false} UnescapeEsc(s: string)
    ensures Unescape(Esc(s)) == s
    decreases |s|
  {
    if |s| > 0 {
      UnescapeOneChar(s[0], Esc(s[1..]));
      UnescapeEsc(s[1..]);
      assert s == [s[0]] + s[1..];
    }
  }

  /** Hence html.escape is injective. */
  lemma EscInjective(a: string, b: string)
    ensures Esc(a) == Esc(b) <==> a == b
  {
    UnescapeEsc(a);
    UnescapeEsc(b);
  }
}
