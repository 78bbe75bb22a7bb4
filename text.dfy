/**
 * The string operations of JavaScript that the components rely on:
 * `startsWith`, `includes`, `toLowerCase`, `trim`, `split(c)[0]`,
 * `join`, and the decimal rendering of integers.
 */
module Text {

  /** `s.startsWith(prefix)`. */
  predicate StartsWith(s: string, prefix: string)
  {
    |prefix| <= |s| && s[..|prefix|] == prefix
  }

  /** `sub` occurs in `s` at position `i`. */
  ghost predicate OccursAt(s: string, sub: string, i: int)
  {
    0 <= i && i + |sub| <= |s| && s[i..i + |sub|] == sub
  }

  /** `s.includes(sub)`: some position of `s` starts an occurrence of `sub`. */
  function Contains(s: string, sub: string): (r: bool)
    ensures r <==> exists i :: OccursAt(s, sub, i)
    decreases |s|
  {
    if |sub| > |s| then
      assert forall i :: !OccursAt(s, sub, i);
      false
    else if s[..|sub|] == sub then
      assert OccursAt(s, sub, 0);
      true
    else
      var rest := Contains(s[1..], sub);
      assert forall i :: OccursAt(s[1..], sub, i) ==> OccursAt(s, sub, i + 1) by {
        forall i | OccursAt(s[1..], sub, i) ensures OccursAt(s, sub, i + 1) {
          assert s[1..][i..i + |sub|] == s[i + 1..i + 1 + |sub|];
        }
      }
      assert forall i :: OccursAt(s, sub, i) && i > 0 ==> OccursAt(s[1..], sub, i - 1) by {
        forall i | OccursAt(s, sub, i) && i > 0 ensures OccursAt(s[1..], sub, i - 1) {
          assert s[1..][i - 1..i - 1 + |sub|] == s[i..i + |sub|];
        }
      }
      rest
  }

  /** The empty string occurs in every string. */
  lemma ContainsEmpty(s: string)
    ensures Contains(s, "")
  {
    assert OccursAt(s, "", 0);
  }

  /** `toLowerCase` on one character: A-Z map to a-z, everything else is kept. */
  function LowerChar(c: char): (r: char)
    ensures 'A' <= c <= 'Z' ==> 'a' <= r <= 'z' && r as int - c as int == 'a' as int - 'A' as int
    ensures !('A' <= c <= 'Z') ==> r == c
  {
    if 'A' <= c <= 'Z' then (c as int - 'A' as int + 'a' as int) as char else c
  }

  /** `s.toLowerCase()`, character by character. */
  function Lower(s: string): (r: string)
    ensures |r| == |s|
    ensures forall i :: 0 <= i < |s| ==> r[i] == LowerChar(s[i])
  {
    seq(|s|, i requires 0 <= i < |s| => LowerChar(s[i]))
  }

  /** Lower-casing twice is lower-casing once, and there are no upper-case letters left. */
  lemma LowerIdempotent(s: string)
    ensures Lower(Lower(s)) == Lower(s)
    ensures forall i :: 0 <= i < |s| ==> !('A' <= Lower(s)[i] <= 'Z')
  {
  }

  /** Lower-casing commutes with taking a slice. */
  lemma LowerSlice(s: string, i: int, j: int)
    requires 0 <= i <= j <= |s|
    ensures Lower(s)[i..j] == Lower(s[i..j])
  {
  }

  /** A substring is still a substring once both sides are lower-cased. */
  lemma ContainsLower(s: string, sub: string)
    requires Contains(s, sub)
    ensures Contains(Lower(s), Lower(sub))
  {
    var i :| OccursAt(s, sub, i);
    LowerSlice(s, i, i + |sub|);
    assert OccursAt(Lower(s), Lower(sub), i);
  }

  /**
   * The characters `String.prototype.trim` removes: the WhiteSpace and
   * LineTerminator code points of ECMAScript (section 12.2 and 12.3 of
   * ECMA-262), that is TAB, VT, FF, SP, NBSP, ZWNBSP, the Zs category,
   * LF, CR, LS and PS.
   */
  predicate IsWhitespace(c: char)
  {
    c == '\t' || c == '\n' || c == '\r' || c == ' ' ||
    c == '\U{000B}' || c == '\U{000C}' || c == '\U{00A0}' || c == '\U{FEFF}' ||
    c == '\U{1680}' || ('\U{2000}' <= c <= '\U{200A}') ||
    c == '\U{2028}' || c == '\U{2029}' || c == '\U{202F}' || c == '\U{205F}' || c == '\U{3000}'
  }

  /** Drop leading whitespace. */
  function TrimStart(s: string): (r: string)
    ensures |r| <= |s| && r == s[|s| - |r|..]
    ensures r == [] || !IsWhitespace(r[0])
    ensures forall k :: 0 <= k < |s| - |r| ==> IsWhitespace(s[k])
  {
    if s != [] && IsWhitespace(s[0]) then TrimStart(s[1..]) else s
  }

  /** Drop trailing whitespace. */
  function TrimEnd(s: string): (r: string)
    ensures |r| <= |s| && r == s[..|r|]
    ensures r == [] || !IsWhitespace(r[|r| - 1])
    ensures forall k :: |r| <= k < |s| ==> IsWhitespace(s[k])
  {
    if s != [] && IsWhitespace(s[|s| - 1]) then TrimEnd(s[..|s| - 1]) else s
  }

  /** `r` is the slice of `s` at `i`, and only whitespace lies around it. */
  ghost predicate TrimmedAt(s: string, r: string, i: int)
  {
    && 0 <= i <= |s| - |r|
    && r == s[i..i + |r|]
    && (forall k :: 0 <= k < i ==> IsWhitespace(s[k]))
    && (forall k :: i + |r| <= k < |s| ==> IsWhitespace(s[k]))
  }

  /**
   * `s.trim()`: the slice of `s` between its leading and its trailing
   * whitespace; the slice starts and ends with a non-whitespace character.
   */
  function Trim(s: string): (r: string)
    ensures exists i :: TrimmedAt(s, r, i)
    ensures r == [] || (!IsWhitespace(r[0]) && !IsWhitespace(r[|r| - 1]))
  {
    var t := TrimStart(s);
    var r := TrimEnd(t);
    var i := |s| - |t|;
    assert r == s[i..i + |r|];
    assert TrimmedAt(s, r, i);
    r
  }

  /** Trimming twice is trimming once. */
  lemma TrimIdempotent(s: string)
    ensures Trim(Trim(s)) == Trim(s)
  {
    var r := Trim(s);
    if r != [] {
      assert TrimStart(r) == r;
      assert TrimEnd(r) == r;
    }
  }

  /** A string trims to "" exactly when every character of it is whitespace. */
  lemma TrimEmptyIff(s: string)
    ensures Trim(s) == [] <==> forall k :: 0 <= k < |s| ==> IsWhitespace(s[k])
  {
    if forall k :: 0 <= k < |s| ==> IsWhitespace(s[k]) {
      AllWhitespaceTrimStart(s);
    }
  }

  lemma {:induction false} AllWhitespaceTrimStart(s: string)
    requires forall k :: 0 <= k < |s| ==> IsWhitespace(s[k])
    ensures TrimStart(s) == []
  {
    if s != [] {
      AllWhitespaceTrimStart(s[1..]);
    }
  }

  /**
   * `s.split(c)[0]`: the part of `s` before the first `c`, or all of `s`
   * when `c` does not occur.
   */
  function BeforeFirst(s: string, c: char): (r: string)
    ensures |r| <= |s| && r == s[..|r|]
    ensures c !in r
    ensures |r| < |s| ==> s[|r|] == c
  {
    if s == [] || s[0] == c then []
    else
      var rest := BeforeFirst(s[1..], c);
      assert s == [s[0]] + s[1..];
      [s[0]] + rest
  }

  /** The decimal digit of `d`. */
  function Digit(d: int): (r: char)
    requires 0 <= d < 10
    ensures '0' <= r <= '9' && r as int - '0' as int == d
  {
    ('0' as int + d) as char
  }

  /** The decimal digits of `n`, most significant first, without leading zeros. */
  function NatToString(n: nat): (r: string)
    ensures |r| >= 1
    ensures forall i :: 0 <= i < |r| ==> '0' <= r[i] <= '9'
    ensures |r| > 1 ==> r[0] != '0'
  {
    if n < 10 then [Digit(n)] else NatToString(n / 10) + [Digit(n % 10)]
  }

  /** `String(i)` for an integer `i`: an optional minus sign and its digits. */
  function IntToString(i: int): (r: string)
    ensures |r| >= 1
    ensures forall k :: 0 <= k < |r| ==> '0' <= r[k] <= '9' || r[k] == '-'
    ensures (i < 0) <==> r[0] == '-'
  {
    if i < 0 then "-" + NatToString(-i) else NatToString(i)
  }

  /** The value of a string of decimal digits. */
  function ParseDigits(s: string): (n: nat)
    requires forall i :: 0 <= i < |s| ==> '0' <= s[i] <= '9'
  {
    if s == [] then 0 else ParseDigits(s[..|s| - 1]) * 10 + (s[|s| - 1] as int - '0' as int)
  }

  /** Reading back the digits written by `NatToString` gives the number. */
  lemma {:induction false} ParseNatToString(n: nat)
    ensures ParseDigits(NatToString(n)) == n
  {
    if n >= 10 {
      var s := NatToString(n);
      assert s[..|s| - 1] == NatToString(n / 10);
      ParseNatToString(n / 10);
    }
  }

  /** Different integers are rendered differently. */
  lemma IntToStringInjective(a: int, b: int)
    requires IntToString(a) == IntToString(b)
    ensures a == b
  {
    var s := IntToString(a);
    assert (a < 0) == (b < 0);
    if a < 0 {
      NatToStringInjective(-a, -b, s[1..]);
    } else {
      NatToStringInjective(a, b, s);
    }
  }

  lemma NatToStringInjective(a: nat, b: nat, s: string)
    requires NatToString(a) == s && NatToString(b) == s
    ensures a == b
  {
    ParseNatToString(a);
    ParseNatToString(b);
  }

  /** `cells.join(sep)`: the cells with one separator between neighbours and none around. */
  function Join(cells: seq<string>, sep: char): (r: string)
    ensures |cells| == 1 ==> r == cells[0]
  {
    if cells == [] then ""
    else if |cells| == 1 then cells[0]
    else cells[0] + [sep] + Join(cells[1..], sep)
  }

  /** `s.split(sep)`: the pieces between separators; always at least one piece. */
  function Split(s: string, sep: char): (r: seq<string>)
    ensures |r| >= 1
  {
    if s == [] then [""]
    else
      var rest := Split(s[1..], sep);
      if s[0] == sep then [""] + rest else [[s[0]] + rest[0]] + rest[1..]
  }

  lemma {:induction false} SplitNoSep(c: string, t: string, sep: char)
    requires sep !in c
    ensures Split(c + t, sep) == [c + Split(t, sep)[0]] + Split(t, sep)[1..]
  {
    if c == [] {
      assert c + t == t;
      var r := Split(t, sep);
      assert c + r[0] == r[0];
      assert r == [r[0]] + r[1..];
    } else {
      assert (c + t)[1..] == c[1..] + t;
      SplitNoSep(c[1..], t, sep);
      assert [c[0]] + (c[1..] + Split(t, sep)[0]) == c + Split(t, sep)[0];
    }
  }

  /** A separator occurs in a join only where the join put it or inside a cell. */
  lemma {:induction false} JoinAvoids(cells: seq<string>, sep: char, x: char)
    requires x != sep
    requires forall k :: 0 <= k < |cells| ==> x !in cells[k]
    ensures x !in Join(cells, sep)
  {
    if |cells| > 1 {
      JoinAvoids(cells[1..], sep, x);
    }
  }

  /** A separator inside the last cell reads, once joined, exactly like a separator between two cells. */
  lemma {:induction false} JoinSeparatorInLast(cells: seq<string>, a: string, b: string, sep: char)
    ensures Join(cells + [a + [sep] + b], sep) == Join(cells + [a, b], sep)
  {
    if cells == [] {
      assert cells + [a + [sep] + b] == [a + [sep] + b];
      assert cells + [a, b] == [a, b];
      assert [a, b][1..] == [b];
    } else {
      JoinSeparatorInLast(cells[1..], a, b, sep);
      assert (cells + [a + [sep] + b])[1..] == cells[1..] + [a + [sep] + b];
      assert (cells + [a, b])[1..] == cells[1..] + [a, b];
    }
  }

  /**
   * Splitting a join gives the cells back, provided there is at least one
   * cell and no cell contains the separator.
   */
  lemma {:induction false} SplitJoin(cells: seq<string>, sep: char)
    requires |cells| >= 1
    requires forall k :: 0 <= k < |cells| ==> sep !in cells[k]
    ensures Split(Join(cells, sep), sep) == cells
  {
    if |cells| == 1 {
      SplitNoSep(cells[0], "", sep);
      assert cells[0] + "" == cells[0];
    } else {
      var tail := Join(cells[1..], sep);
      SplitJoin(cells[1..], sep);
      SplitNoSep(cells[0], [sep] + tail, sep);
      assert cells[0] + [sep] + tail == cells[0] + ([sep] + tail);
      assert ([sep] + tail)[1..] == tail;
      assert cells[0] + "" == cells[0];
      assert cells == [cells[0]] + cells[1..];
    }
  }
}
