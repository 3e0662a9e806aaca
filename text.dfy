/**
 * The parts of Python's built-in `str` and the small wrapper types that the
 * three agents rely on: whitespace (`str.isspace`, `str.strip`), prefixes
 * (`str.startswith`), `sep.join(parts)`, `str(n)` for a natural number and
 * `str.lower()` as far as the chat loop compares it against "quit".
 *
 * Calls into foreign services (the language model, the embedder, the vector
 * store, the file system, Python's `eval`) are modelled as values of type
 * `Attempt<T>`: either the call returned a value or it raised an exception
 * whose `str(e)` is `error`.
 */
module PyText {

  datatype Option<+T> = None | Some(value: T)

  /** The outcome of a call that may raise: `Returned(v)` or `Raised(str(e))`. */
  datatype Attempt<+T> = Returned(value: T) | Raised(error: string)

  /** Python's `str.isspace()` for one character (whitespace in the sense of
      Unicode bidirectional classes WS, B, S and general category Zs). */
  predicate IsSpace(c: char) {
    || ('\t' <= c <= '\r')                 // \t \n \x0b \x0c \r
    || ('\U{001C}' <= c <= '\U{001F}')     // file, group, record and unit separators
    || c == ' '
    || c == '\U{0085}'
    || c == '\U{00A0}'
    || c == '\U{1680}'
    || ('\U{2000}' <= c <= '\U{200A}')
    || c == '\U{2028}'
    || c == '\U{2029}'
    || c == '\U{202F}'
    || c == '\U{205F}'
    || c == '\U{3000}'
  }

  /** `not s.strip()` in Python: every character is whitespace. */
  predicate IsBlank(s: string) {
    forall i :: 0 <= i < |s| ==> IsSpace(s[i])
  }

  /** `s.lstrip()`: the longest suffix of `s` that does not start with whitespace. */
  function LStrip(s: string): (r: string)
    ensures |r| <= |s| && r == s[|s| - |r|..]
    ensures forall i :: 0 <= i < |s| - |r| ==> IsSpace(s[i])
    ensures r == [] || !IsSpace(r[0])
  {
    if |s| > 0 && IsSpace(s[0]) then LStrip(s[1..]) else s
  }

  /** `s.rstrip()`: the longest prefix of `s` that does not end with whitespace. */
  function RStrip(s: string): (r: string)
    ensures |r| <= |s| && r == s[..|r|]
    ensures forall i :: |r| <= i < |s| ==> IsSpace(s[i])
    ensures r == [] || !IsSpace(r[|r| - 1])
  {
    if |s| > 0 && IsSpace(s[|s| - 1]) then RStrip(s[..|s| - 1]) else s
  }

  /** `s.strip()`: drops leading and trailing whitespace; the result is empty
      exactly when `s` is blank, and otherwise starts and ends with a
      non-whitespace character. */
  function Strip(s: string): (r: string)
    ensures |r| <= |s|
    ensures r == [] <==> IsBlank(s)
    ensures r != [] ==> !IsSpace(r[0]) && !IsSpace(r[|r| - 1])
    ensures exists i, j :: 0 <= i <= j <= |s| && r == s[i..j] && IsBlank(s[..i]) && IsBlank(s[j..])
  {
    var l := LStrip(s);
    var r := RStrip(l);
    assert r != [] ==> !IsSpace(r[0]);
    StripSlice(s, l, r);
    r
  }

  /** A prefix `r` of a suffix `l` of `s`, with only whitespace cut off on
      either side, is a slice of `s` with blank text around it. */
  lemma StripSlice(s: string, l: string, r: string)
    requires |l| <= |s| && l == s[|s| - |l|..] && forall k :: 0 <= k < |s| - |l| ==> IsSpace(s[k])
    requires |r| <= |l| && r == l[..|r|] && forall k :: |r| <= k < |l| ==> IsSpace(l[k])
    ensures var i := |s| - |l|;
            r == s[i..i + |r|] && IsBlank(s[..i]) && IsBlank(s[i + |r|..])
  {
    var i := |s| - |l|;
    var j := i + |r|;
    forall k | 0 <= k < |r| ensures r[k] == s[i + k] {
      assert r[k] == l[k] == s[i + k];
    }
    assert r == s[i..j];
    forall k | 0 <= k < i ensures IsSpace(s[..i][k]) {
      assert s[..i][k] == s[k];
    }
    forall k | 0 <= k < |s| - j ensures IsSpace(s[j..][k]) {
      assert s[j..][k] == l[|r| + k];
    }
  }

  /** A stripped string is its own strip. */
  lemma {:induction false} StripIdempotent(s: string)
    ensures Strip(Strip(s)) == Strip(s)
  {
    var t := Strip(s);
    assert LStrip(t) == t;
    assert RStrip(t) == t;
  }

  /** `s.startswith(p)`. */
  predicate StartsWith(s: string, p: string) {
    |p| <= |s| && s[..|p|] == p
  }

  /** `sep.join(parts)`. */
  function Join(parts: seq<string>, sep: string): string
    decreases |parts|
  {
    if |parts| == 0 then ""
    else if |parts| == 1 then parts[0]
    else Join(parts[..|parts| - 1], sep) + sep + parts[|parts| - 1]
  }

  /** Joining parts none of which is empty gives the empty string exactly
      when there are no parts. */
  lemma {:induction false} JoinEmptyIff(parts: seq<string>, sep: string)
    requires forall i :: 0 <= i < |parts| ==> parts[i] != ""
    ensures Join(parts, sep) == "" <==> parts == []
  {
    if |parts| > 1 {
      var last := parts[|parts| - 1];
      assert |Join(parts, sep)| >= |last| > 0;
    }
  }

  /** The decimal digit character for `d`. */
  function Digit(d: nat): (c: char)
    requires d < 10
    ensures '0' <= c <= '9'
  {
    (48 + d) as char
  }

  /** `str(n)` for a natural number: its decimal representation. */
  function NatToString(n: nat): (r: string)
    ensures |r| >= 1
    ensures forall i :: 0 <= i < |r| ==> '0' <= r[i] <= '9'
    ensures r[|r| - 1] == Digit(n % 10)
    ensures n < 10 <==> |r| == 1
    decreases n
  {
    if n < 10 then [Digit(n)] else NatToString(n / 10) + [Digit(n % 10)]
  }

  /** Different numbers have different decimal representations. */
  lemma {:induction false} NatToStringInjective(a: nat, b: nat)
    ensures NatToString(a) == NatToString(b) <==> a == b
  {
    if NatToString(a) == NatToString(b) && a >= 10 && b >= 10 {
      var sa, sb := NatToString(a), NatToString(b);
      assert sa[..|sa| - 1] == NatToString(a / 10);
      assert sb[..|sb| - 1] == NatToString(b / 10);
      NatToStringInjective(a / 10, b / 10);
      assert Digit(a % 10) == Digit(b % 10);
    }
  }

  /** Lower-cases the ASCII letters of `s`. No non-ASCII character lowers to
      one of "q", "u", "i", "t" in Python, so comparing this against "quit"
      agrees with Python's `s.lower() == "quit"`. */
  function LowerAscii(s: string): (r: string)
    ensures |r| == |s|
    ensures forall i :: 0 <= i < |s| ==> r[i] == (if 'A' <= s[i] <= 'Z' then (s[i] as int + 32) as char else s[i])
  {
    seq(|s|, i requires 0 <= i < |s| => if 'A' <= s[i] <= 'Z' then (s[i] as int + 32) as char else s[i])
  }
}
