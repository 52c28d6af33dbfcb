/** Character classes and the three string operations the content sniffer applies to
    its input before any pattern is tried: `trimStart()`, `slice(0, n)` and
    `toLowerCase()` / `toLocaleLowerCase()`. */
module Text {

  /** ECMAScript white space plus line terminators: the characters matched by the
      regular-expression class `\s` and removed by `String.prototype.trimStart`. */
  predicate IsSpace(c: char) {
    || c == '\t' || c == '\n' || c == '\U{000B}' || c == '\U{000C}' || c == '\r'
    || c == ' ' || c == '\U{00A0}' || c == '\U{1680}'
    || ('\U{2000}' <= c <= '\U{200A}')
    || c == '\U{2028}' || c == '\U{2029}' || c == '\U{202F}' || c == '\U{205F}'
    || c == '\U{3000}' || c == '\U{FEFF}'
  }

  /** The characters that end a line for `^`, `$` and `.` in a regular expression. */
  predicate IsLineTerminator(c: char) {
    c == '\n' || c == '\r' || c == '\U{2028}' || c == '\U{2029}'
  }

  /** The class `\w`, which decides where `\b` holds. */
  predicate IsWordChar(c: char) {
    ('a' <= c <= 'z') || ('A' <= c <= 'Z') || ('0' <= c <= '9') || c == '_'
  }

  /** The class `\d`. */
  predicate IsDigit(c: char) {
    '0' <= c <= '9'
  }

  predicate IsUpper(c: char) {
    'A' <= c <= 'Z'
  }

  /** Lower-casing of one character, restricted to the ASCII letters. */
  function LowerChar(c: char): (r: char)
    ensures IsUpper(c) ==> 'a' <= r <= 'z' && r as int == c as int + 32
    ensures !IsUpper(c) ==> r == c
  {
    if IsUpper(c) then (c as int + 32) as char else c
  }

  /** `toLowerCase()` on ASCII letters; every other character is kept. */
  function Lower(s: string): (r: string)
    ensures |r| == |s|
    ensures forall i :: 0 <= i < |s| ==> r[i] == LowerChar(s[i])
  {
    seq(|s|, i requires 0 <= i < |s| => LowerChar(s[i]))
  }

  /** `trimStart()`: the longest suffix of `s` that does not start with white space. */
  function TrimStart(s: string): (r: string)
    ensures |r| <= |s| && r == s[|s| - |r|..]
    ensures forall i :: 0 <= i < |s| - |r| ==> IsSpace(s[i])
    ensures r == [] || !IsSpace(r[0])
  {
    if s != [] && IsSpace(s[0]) then TrimStart(s[1..]) else s
  }

  /** `slice(0, n)`: the first `n` characters, or all of them when there are fewer. */
  function Slice(s: string, n: nat): (r: string)
    ensures |r| == if n < |s| then n else |s|
    ensures r <= s
  {
    if n < |s| then s[..n] else s
  }

  /** A string is blank when `trim()` leaves nothing of it. */
  predicate IsBlank(s: string) {
    TrimStart(s) == []
  }

  lemma BlankIsAllSpace(s: string)
    ensures IsBlank(s) <==> forall i :: 0 <= i < |s| ==> IsSpace(s[i])
  {
  }

  /** White space in front of a string is invisible to `trimStart()`. */
  lemma {:induction false} TrimStartSkipsSpace(ws: string, s: string)
    requires forall i :: 0 <= i < |ws| ==> IsSpace(ws[i])
    ensures TrimStart(ws + s) == TrimStart(s)
  {
    if ws != [] {
      var joined := ws + s;
      assert IsSpace(ws[0]);
      assert joined[0] == ws[0] && joined[1..] == ws[1..] + s;
      assert TrimStart(joined) == TrimStart(ws[1..] + s);
      assert forall i :: 0 <= i < |ws[1..]| ==> IsSpace(ws[1..][i]) by {
        forall i | 0 <= i < |ws[1..]| ensures IsSpace(ws[1..][i]) {
          assert ws[1..][i] == ws[i + 1];
        }
      }
      TrimStartSkipsSpace(ws[1..], s);
    } else {
      assert ws + s == s;
    }
  }

  /** Lower-casing neither creates nor removes white space, so it commutes with `trimStart()`. */
  lemma {:induction false} LowerTrimStart(s: string)
    ensures Lower(TrimStart(s)) == TrimStart(Lower(s))
  {
    if s != [] {
      var low := Lower(s);
      assert low[0] == LowerChar(s[0]);
      assert IsSpace(low[0]) == IsSpace(s[0]);
      assert low[1..] == Lower(s[1..]);
      if IsSpace(s[0]) {
        calc {
          Lower(TrimStart(s));
          Lower(TrimStart(s[1..]));
          { LowerTrimStart(s[1..]); }
          TrimStart(Lower(s[1..]));
          TrimStart(low);
        }
      } else {
        assert TrimStart(s) == s;
        assert TrimStart(low) == low;
      }
    }
  }

  lemma LowerSlice(s: string, n: nat)
    ensures Lower(Slice(s, n)) == Slice(Lower(s), n)
  {
  }

  lemma SliceOfSlice(s: string, m: nat, n: nat)
    requires m <= n
    ensures Slice(Slice(s, n), m) == Slice(s, m)
  {
  }

  lemma LowerIdempotent(s: string)
    ensures Lower(Lower(s)) == Lower(s)
  {
  }

  /** A character that is not an upper-case letter appears in `Lower(s)` only where it appears in `s`. */
  lemma LowerKeepsNonLetter(s: string, i: int, c: char)
    requires 0 <= i < |s| && !IsUpper(c) && !('a' <= c <= 'z')
    ensures Lower(s)[i] == c <==> s[i] == c
  {
  }
}
