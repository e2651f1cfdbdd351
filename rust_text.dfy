/** The pieces of Rust's `str` API the client relies on, written out:
    `split_whitespace`, `lines().collect::<String>()`, `parse::<uN>()`,
    decimal formatting, `join` and `split`. */
module RustText {
  import opened Common

  // ---------------------------------------------------------------------
  // Whitespace and `split_whitespace`
  // ---------------------------------------------------------------------

  /** `char::is_whitespace`: the Unicode White_Space property. */
  predicate IsWhitespace(c: char) {
    ('\U{0009}' <= c <= '\U{000D}') || c == ' ' || c == '\U{0085}' || c == '\U{00A0}'
    || c == '\U{1680}' || ('\U{2000}' <= c <= '\U{200A}') || c == '\U{2028}' || c == '\U{2029}'
    || c == '\U{202F}' || c == '\U{205F}' || c == '\U{3000}'
  }

  /** A token of `split_whitespace`: non-empty, without whitespace. */
  predicate IsToken(w: string) {
    |w| > 0 && forall k :: 0 <= k < |w| ==> !IsWhitespace(w[k])
  }

  /** Length of the run of non-whitespace characters that starts `s`. */
  function WordLength(s: string): (n: nat)
    ensures n <= |s|
    ensures forall k :: 0 <= k < n ==> !IsWhitespace(s[k])
    ensures n < |s| ==> IsWhitespace(s[n])
  {
    if s == [] || IsWhitespace(s[0]) then 0 else 1 + WordLength(s[1..])
  }

  /** `s.split_whitespace()` collected into a sequence. */
  function Words(s: string): (ws: seq<string>)
    ensures forall i :: 0 <= i < |ws| ==> IsToken(ws[i])
    decreases |s|
  {
    if s == [] then []
    else if IsWhitespace(s[0]) then Words(s[1..])
    else
      var n := WordLength(s);
      [s[..n]] + Words(s[n..])
  }

  /** The loop of `Command::try_from` that pushes every item of
      `split_whitespace` onto a `Vec`, with the iterator's scan written out. */
  method SplitWhitespace(s: string) returns (tokens: seq<string>)
    ensures tokens == Words(s)
  {
    tokens := [];
    var i := 0;
    while i < |s|
      invariant 0 <= i <= |s|
      invariant tokens + Words(s[i..]) == Words(s)
    {
      if IsWhitespace(s[i]) {
        assert s[i..][1..] == s[i + 1..];
        i := i + 1;
      } else {
        var j := i;
        while j < |s| && !IsWhitespace(s[j])
          invariant i <= j <= |s|
          invariant forall k :: i <= k < j ==> !IsWhitespace(s[k])
        {
          j := j + 1;
        }
        ghost var rest := s[i..];
        assert WordLength(rest) == j - i by {
          var n := WordLength(rest);
          if n < j - i || n > j - i {
            assert false;
          }
        }
        assert rest[..j - i] == s[i..j];
        assert rest[j - i..] == s[j..];
        tokens := tokens + [s[i..j]];
        i := j;
      }
    }
  }

  /** Tokens joined by single spaces. */
  function JoinSpaces(ws: seq<string>): string {
    if |ws| == 0 then "" else if |ws| == 1 then ws[0] else ws[0] + " " + JoinSpaces(ws[1..])
  }

  lemma {:induction false} WordLengthOfToken(w: string, rest: string)
    requires forall k :: 0 <= k < |w| ==> !IsWhitespace(w[k])
    requires rest == [] || IsWhitespace(rest[0])
    ensures WordLength(w + rest) == |w|
  {
    if w == [] {
      assert w + rest == rest;
    } else {
      assert (w + rest)[1..] == w[1..] + rest;
      WordLengthOfToken(w[1..], rest);
    }
  }

  /** `split_whitespace` undoes joining tokens with spaces. */
  lemma {:induction false} WordsOfJoinSpaces(ws: seq<string>)
    requires forall i :: 0 <= i < |ws| ==> IsToken(ws[i])
    ensures Words(JoinSpaces(ws)) == ws
  {
    if |ws| == 0 {
    } else if |ws| == 1 {
      var w := ws[0];
      WordLengthOfToken(w, "");
      assert w + "" == w;
      assert w[..|w|] == w;
      assert w[|w|..] == [];
    } else {
      var w := ws[0];
      var tail := " " + JoinSpaces(ws[1..]);
      var s := w + tail;
      assert JoinSpaces(ws) == s;
      WordLengthOfToken(w, tail);
      assert s[..|w|] == w;
      assert s[|w|..] == tail;
      assert tail[1..] == JoinSpaces(ws[1..]);
      WordsOfJoinSpaces(ws[1..]);
      assert ws == [w] + ws[1..];
    }
  }

  // ---------------------------------------------------------------------
  // `lines().collect::<String>()`
  // ---------------------------------------------------------------------

  /** `s.lines().collect::<String>()`: every line feed is removed, together
      with a carriage return immediately before it; the lines are
      concatenated. */
  function JoinLines(s: string): (r: string)
    ensures |r| <= |s|
    ensures forall k :: 0 <= k < |r| ==> r[k] != '\n'
  {
    if s == [] then []
    else if s[0] == '\n' then JoinLines(s[1..])
    else if s[0] == '\r' && |s| > 1 && s[1] == '\n' then JoinLines(s[2..])
    else [s[0]] + JoinLines(s[1..])
  }

  /** Text without line feeds is left alone. */
  lemma {:induction false} JoinLinesOfLine(s: string)
    requires forall k :: 0 <= k < |s| ==> s[k] != '\n'
    ensures JoinLines(s) == s
  {
    if s != [] {
      JoinLinesOfLine(s[1..]);
      assert s == [s[0]] + s[1..];
    }
  }

  /** A line ending "\r\n" or "\n" is stripped, and nothing else. */
  lemma {:induction false} JoinLinesStripsTerminator(s: string, term: string)
    requires forall k :: 0 <= k < |s| ==> s[k] != '\n'
    requires term == "\r\n" || term == "\n"
    ensures JoinLines(s + term) == s || (term == "\n" && |s| > 0 && s[|s| - 1] == '\r' && JoinLines(s + term) == s[..|s| - 1])
    decreases |s|
  {
    if s == [] {
      assert JoinLines(term) == [] by {
        if term == "\r\n" {
          assert term[2..] == [];
        } else {
          assert term[1..] == [];
        }
      }
    } else if s[0] == '\r' && |s| == 1 && term == "\n" {
      assert s + term == "\r\n";
      assert (s + term)[2..] == [];
    } else {
      assert (s + term)[0] == s[0];
      assert (s + term)[1..] == s[1..] + term;
      if |s| > 1 {
        assert (s + term)[1] == s[1];
      } else {
        assert s[1..] == [];
        assert (s + term)[1] == term[0];
      }
      JoinLinesStripsTerminator(s[1..], term);
      assert s == [s[0]] + s[1..];
      if JoinLines(s[1..] + term) != s[1..] {
        assert s[1..][..|s[1..]| - 1] == s[1..|s| - 1];
        assert s[..|s| - 1] == [s[0]] + s[1..|s| - 1];
      }
    }
  }

  // ---------------------------------------------------------------------
  // Unsigned integers: `parse::<uN>()` and decimal formatting
  // ---------------------------------------------------------------------

  predicate IsDigit(c: char) { '0' <= c <= '9' }

  predicate AllDigits(s: string) { forall i :: 0 <= i < |s| ==> IsDigit(s[i]) }

  function DigitsValue(s: string): nat
    requires AllDigits(s)
  {
    if s == [] then 0 else 10 * DigitsValue(s[..|s| - 1]) + ((s[|s| - 1] as int) - ('0' as int))
  }

  /** `str::parse::<uN>()` where `max` is `uN::MAX`: an optional leading
      '+', then at least one ASCII digit, with a value not above `max`.
      Leading zeros are accepted; a sign alone, a '-' or any other
      character is rejected. */
  function ParseUnsigned(s: string, max: nat): (r: Option<nat>)
    ensures r.Some? ==> r.value <= max
    ensures r.Some? ==> |s| > 0 && forall i :: 0 <= i < |s| ==> IsDigit(s[i]) || (i == 0 && s[i] == '+')
    ensures s == [] || s == "+" || '-' in s ==> r.None?
    ensures |s| > 0 && AllDigits(s) && DigitsValue(s) <= max ==> r == Some(DigitsValue(s))
    ensures |s| > 1 && s[0] == '+' && AllDigits(s[1..]) && DigitsValue(s[1..]) <= max ==> r == Some(DigitsValue(s[1..]))
    ensures r.Some? ==>
              var digits := if s[0] == '+' then s[1..] else s;
              |digits| > 0 && AllDigits(digits) && r.value == DigitsValue(digits)
    ensures AllDigits(s) && DigitsValue(s) > max ==> r.None?
  {
    var digits := if |s| > 0 && s[0] == '+' then s[1..] else s;
    if |digits| > 0 && AllDigits(digits) && DigitsValue(digits) <= max
    then Some(DigitsValue(digits))
    else None
  }

  function ParseU16(s: string): Option<u16> {
    match ParseUnsigned(s, 0xFFFF)
    case Some(v) => Some(v)
    case None => None
  }

  function ParseU64(s: string): Option<u64> {
    match ParseUnsigned(s, 0xFFFF_FFFF_FFFF_FFFF)
    case Some(v) => Some(v)
    case None => None
  }

  /** `s.parse::<InputNumber>().unwrap_or(0)`. */
  function ParseU16Or0(s: string): (n: u16)
    ensures |s| > 0 && AllDigits(s) && DigitsValue(s) <= 0xFFFF ==> n == DigitsValue(s)
    ensures s == [] || '-' in s || (AllDigits(s) && DigitsValue(s) > 0xFFFF) ==> n == 0
  {
    match ParseU16(s)
    case Some(v) => v
    case None => 0
  }

  /** `n.to_string()` for an unsigned integer. */
  function FormatDecimal(n: nat): (s: string)
    ensures |s| > 0 && AllDigits(s)
    ensures DigitsValue(s) == n
  {
    var last := [(('0' as int) + n % 10) as char];
    if n < 10 then last
    else
      var s := FormatDecimal(n / 10) + last;
      assert s[..|s| - 1] == FormatDecimal(n / 10);
      s
  }

  /** Parsing a formatted number gives the number back, exactly when it
      fits the width. */
  lemma ParseFormatted(n: nat, max: nat)
    ensures ParseUnsigned(FormatDecimal(n), max) == if n <= max then Some(n) else None
  {
    var s := FormatDecimal(n);
    assert IsDigit(s[0]);
  }

  // ---------------------------------------------------------------------
  // `join` and `split` on a one-character separator
  // ---------------------------------------------------------------------

  /** `parts.join(sep)`. */
  function Join(parts: seq<string>, sep: char): string {
    if |parts| == 0 then "" else if |parts| == 1 then parts[0] else parts[0] + [sep] + Join(parts[1..], sep)
  }

  /** Position of the first `c` in `s`, or `|s|` when there is none. */
  function IndexOf(s: string, c: char): (i: nat)
    ensures i <= |s|
    ensures i < |s| ==> s[i] == c
    ensures forall k :: 0 <= k < i ==> s[k] != c
  {
    if s == [] || s[0] == c then 0 else 1 + IndexOf(s[1..], c)
  }

  /** `s.split(sep)` collected into a sequence (never empty). */
  function Split(s: string, sep: char): (parts: seq<string>)
    ensures |parts| >= 1
    ensures forall i :: 0 <= i < |parts| ==> sep !in parts[i]
    decreases |s|
  {
    var i := IndexOf(s, sep);
    if i == |s| then [s] else [s[..i]] + Split(s[i + 1..], sep)
  }

  lemma {:induction false} IndexOfPrefix(p: string, rest: string, c: char)
    requires c !in p
    requires rest == [] || rest[0] == c
    ensures IndexOf(p + rest, c) == |p|
  {
    if p == [] {
      assert p + rest == rest;
    } else {
      assert (p + rest)[1..] == p[1..] + rest;
      IndexOfPrefix(p[1..], rest, c);
    }
  }

  /** Splitting undoes joining, when no part contains the separator. */
  lemma {:induction false} SplitJoin(parts: seq<string>, sep: char)
    requires |parts| >= 1
    requires forall i :: 0 <= i < |parts| ==> sep !in parts[i]
    ensures Split(Join(parts, sep), sep) == parts
  {
    var p := parts[0];
    if |parts| == 1 {
      IndexOfPrefix(p, "", sep);
      assert p + "" == p;
    } else {
      var tail := [sep] + Join(parts[1..], sep);
      var s := p + tail;
      assert Join(parts, sep) == s;
      IndexOfPrefix(p, tail, sep);
      assert s[..|p|] == p;
      assert s[|p| + 1..] == Join(parts[1..], sep);
      SplitJoin(parts[1..], sep);
      assert parts == [p] + parts[1..];
    }
  }

  /** Joining undoes splitting. */
  lemma {:induction false} JoinSplit(s: string, sep: char)
    ensures Join(Split(s, sep), sep) == s
    decreases |s|
  {
    var i := IndexOf(s, sep);
    if i < |s| {
      var rest := Split(s[i + 1..], sep);
      JoinSplit(s[i + 1..], sep);
      assert Split(s, sep) == [s[..i]] + rest;
      assert ([s[..i]] + rest)[1..] == rest;
      assert s == s[..i] + [sep] + s[i + 1..];
    }
  }
}
