/** The JavaScript string operations the modelled code relies on, on `seq<char>`:
    prefix and substring tests, `split`/`join` on one character, the `%20`
    rewrites of gallery paths, ASCII lower-casing, `trim`, and the decimal
    rendering of integers. */
module Strings {

  /** `s.startsWith(p)` */
  predicate StartsWith(s: string, p: string) {
    |p| <= |s| && s[..|p|] == p
  }

  /** `s.includes(sub)` */
  predicate Contains(s: string, sub: string)
    decreases |s|
  {
    StartsWith(s, sub) || (|s| > 0 && Contains(s[1..], sub))
  }

  lemma {:induction false} ContainsAt(s: string, sub: string, i: nat)
    requires i + |sub| <= |s| && s[i..i + |sub|] == sub
    ensures Contains(s, sub)
    decreases i
  {
    if i > 0 {
      assert s[1..][i - 1..i - 1 + |sub|] == sub;
      ContainsAt(s[1..], sub, i - 1);
    }
  }

  /** An occurrence in a suffix is an occurrence in the whole. */
  lemma {:induction false} ContainsInSuffix(s: string, k: nat, sub: string)
    requires k <= |s| && Contains(s[k..], sub)
    ensures Contains(s, sub)
    decreases k
  {
    if k > 0 {
      assert s[1..][k - 1..] == s[k..];
      ContainsInSuffix(s[1..], k - 1, sub);
    }
  }

  /** A character that does not occur in `s` cannot start an occurrence of a
      pattern beginning with it. */
  lemma {:induction false} NotContainsChar(s: string, sub: string)
    requires |sub| > 0 && sub[0] !in s
    ensures !Contains(s, sub)
    decreases |s|
  {
    if |s| > 0 {
      assert s[0] in s;
      NotContainsChar(s[1..], sub);
    }
  }

  /** `s.replace(/^\/+/, '')`: drops every leading `/`. */
  function StripLeadingSlashes(s: string): (r: string)
    ensures |r| <= |s| && r == s[|s| - |r|..]
    ensures r == [] || r[0] != '/'
    ensures forall i :: 0 <= i < |s| - |r| ==> s[i] == '/'
    decreases |s|
  {
    if |s| > 0 && s[0] == '/' then StripLeadingSlashes(s[1..]) else s
  }

  /** Removing leading slashes never changes whether a pattern that does not
      start with `/` occurs. */
  lemma {:induction false} ContainsIgnoresLeadingSlashes(s: string, pat: string)
    requires |pat| > 0 && pat[0] != '/'
    ensures Contains(StripLeadingSlashes(s), pat) == Contains(s, pat)
    decreases |s|
  {
    if |s| > 0 && s[0] == '/' {
      ContainsIgnoresLeadingSlashes(s[1..], pat);
      assert !StartsWith(s, pat);
    }
  }

  /** `parts.join(c)` */
  function Join(parts: seq<string>, c: char): string
    requires |parts| >= 1
    decreases |parts|
  {
    if |parts| == 1 then parts[0] else parts[0] + [c] + Join(parts[1..], c)
  }

  /** `s.split(c)` for a one-character separator: the pieces between the
      separators, so there is always at least one piece. */
  function Split(s: string, c: char): (parts: seq<string>)
    ensures |parts| >= 1
    ensures forall i :: 0 <= i < |parts| ==> c !in parts[i]
    ensures Join(parts, c) == s
    decreases |s|
  {
    if |s| == 0 then [""]
    else
      var rest := Split(s[1..], c);
      if s[0] == c then
        assert ([""] + rest)[1..] == rest;
        [""] + rest
      else
        var parts := [[s[0]] + rest[0]] + rest[1..];
        assert forall i :: 1 <= i < |rest| ==> parts[i] == rest[i];
        if |rest| > 1 then
          assert parts[1..] == rest[1..];
          assert Join(rest, c) == rest[0] + [c] + Join(rest[1..], c);
          parts
        else
          parts
  }

  /** Splitting undoes joining: `Split` recovers any pieces free of the separator. */
  lemma {:induction false} SplitJoin(parts: seq<string>, c: char)
    requires |parts| >= 1
    requires forall i :: 0 <= i < |parts| ==> c !in parts[i]
    ensures Split(Join(parts, c), c) == parts
    decreases |parts|, |parts[0]|
  {
    var s := Join(parts, c);
    if |parts[0]| == 0 {
      if |parts| > 1 {
        assert s == [c] + Join(parts[1..], c);
        assert s[1..] == Join(parts[1..], c);
        SplitJoin(parts[1..], c);
        assert parts == [""] + parts[1..];
      }
    } else {
      var p0 := parts[0];
      var shorter := [p0[1..]] + parts[1..];
      assert shorter[1..] == parts[1..];
      assert forall i :: 0 <= i < |shorter| ==> c !in shorter[i] by {
        forall i | 0 <= i < |shorter| ensures c !in shorter[i] {
          if i == 0 {
            assert forall x :: x in p0[1..] ==> x in p0;
          }
        }
      }
      assert Join(shorter, c) == s[1..] by {
        if |parts| > 1 {
          assert s == p0 + [c] + Join(parts[1..], c);
          assert s[1..] == p0[1..] + [c] + Join(parts[1..], c);
        }
      }
      SplitJoin(shorter, c);
      assert p0[0] in p0;
      assert s[0] == p0[0];
      assert [p0[0]] + p0[1..] == p0;
      assert parts == [[s[0]] + shorter[0]] + shorter[1..];
    }
  }

  /** Joining a first piece to the rest puts one separator between them. */
  lemma JoinCons(first: string, rest: seq<string>, c: char)
    requires |rest| >= 1
    ensures Join([first] + rest, c) == first + [c] + Join(rest, c)
  {
    assert ([first] + rest)[1..] == rest;
  }

  /** A string holding the separator splits into at least two pieces. */
  lemma SplitHasTwo(s: string, c: char)
    requires c in s
    ensures |Split(s, c)| >= 2
  {
    var parts := Split(s, c);
    if |parts| == 1 {
      assert false;
    }
  }

  /** `s.split(c).pop()`: the text after the last separator, or all of `s`. */
  function LastPiece(s: string, c: char): (r: string)
    ensures c !in r
    ensures |r| <= |s| && r == s[|s| - |r|..]
    ensures |r| == |s| || s[|s| - |r| - 1] == c
  {
    var parts := Split(s, c);
    LastPieceOfJoin(parts, c);
    parts[|parts| - 1]
  }

  lemma {:induction false} LastPieceOfJoin(parts: seq<string>, c: char)
    requires |parts| >= 1
    ensures var s, r := Join(parts, c), parts[|parts| - 1];
      |r| <= |s| && r == s[|s| - |r|..] && (|parts| == 1 || (|r| < |s| && s[|s| - |r| - 1] == c))
    decreases |parts|
  {
    if |parts| > 1 {
      LastPieceOfJoin(parts[1..], c);
      var tail := Join(parts[1..], c);
      assert Join(parts, c) == (parts[0] + [c]) + tail;
    }
  }

  /** `s.replace(/ /g, '%20')` */
  function EncodeSpaces(s: string): (r: string)
    ensures ' ' !in r
    ensures ' ' !in s ==> r == s
    decreases |s|
  {
    if |s| == 0 then ""
    else (if s[0] == ' ' then "%20" else [s[0]]) + EncodeSpaces(s[1..])
  }

  /** `s.replace(/%20/g, ' ')`: a left-to-right scan replacing each `%20`. */
  function DecodeSpaces(s: string): (r: string)
    ensures |r| <= |s|
    ensures !Contains(s, "%20") ==> r == s
    ensures forall ch :: ch in r && ch != ' ' ==> ch in s
    decreases |s|
  {
    if |s| == 0 then ""
    else if StartsWith(s, "%20") then " " + DecodeSpaces(s[3..])
    else [s[0]] + DecodeSpaces(s[1..])
  }

  /** A leading `%20` decodes to a space. */
  lemma DecodeAfterCode(e: string)
    ensures DecodeSpaces("%20" + e) == " " + DecodeSpaces(e)
  {
    assert StartsWith("%20" + e, "%20");
    assert ("%20" + e)[3..] == e;
  }

  /** A leading character that does not start `%20` is kept as is. */
  lemma DecodeAfterChar(c: char, e: string)
    requires !StartsWith([c] + e, "%20")
    ensures DecodeSpaces([c] + e) == [c] + DecodeSpaces(e)
  {
    assert ([c] + e)[1..] == e;
  }

  /** Decoding undoes encoding for every path that does not already hold a
      literal `%20`. */
  lemma {:induction false} DecodeEncodeSpaces(s: string)
    requires !Contains(s, "%20")
    ensures DecodeSpaces(EncodeSpaces(s)) == s
    decreases |s|
  {
    if |s| > 0 {
      assert !Contains(s[1..], "%20");
      DecodeEncodeSpaces(s[1..]);
      var e := EncodeSpaces(s[1..]);
      if s[0] == ' ' {
        assert EncodeSpaces(s) == "%20" + e;
        DecodeAfterCode(e);
      } else {
        assert EncodeSpaces(s) == [s[0]] + e;
        if StartsWith([s[0]] + e, "%20") {
          // `e` starts with "20" only when `s[1..]` does, and then `s` held "%20"
          assert ([s[0]] + e)[..3] == "%20";
          EncodeStartsWithDigit(s[1..]);
          assert false;
        }
        DecodeAfterChar(s[0], e);
      }
    }
  }

  /** A decoded text that does not start with a space starts with the
      original's first character. */
  lemma DecodeKeepsLead(s: string)
    requires |DecodeSpaces(s)| > 0 && DecodeSpaces(s)[0] != ' '
    ensures |s| > 0 && !StartsWith(s, "%20") && s[0] == DecodeSpaces(s)[0]
    ensures DecodeSpaces(s) == [s[0]] + DecodeSpaces(s[1..])
  {
  }

  /** A text whose first three characters are `%`, `2`, `0` starts with `%20`. */
  lemma CodeAtFront(s: string)
    ensures |s| >= 3 && s[0] == '%' && s[1] == '2' && s[2] == '0' ==> StartsWith(s, "%20")
  {
    if |s| >= 3 && s[0] == '%' && s[1] == '2' && s[2] == '0' {
      assert s[..3] == "%20";
    }
  }

  /** A single left-to-right pass leaves no `%20` behind: every `%20` the
      result could hold would have been replaced when the scan reached it. */
  lemma {:induction false} DecodedHasNoCode(s: string)
    ensures !Contains(DecodeSpaces(s), "%20")
    decreases |s|
  {
    if |s| > 0 {
      var d := DecodeSpaces(s);
      if StartsWith(s, "%20") {
        DecodedHasNoCode(s[3..]);
        assert d == " " + DecodeSpaces(s[3..]);
        assert d[1..] == DecodeSpaces(s[3..]);
        assert |d| < 3 || d[..3][0] == ' ';
      } else {
        DecodedHasNoCode(s[1..]);
        var rest := DecodeSpaces(s[1..]);
        assert d == [s[0]] + rest;
        assert d[1..] == rest;
        CodeAtFront(s);
        if StartsWith(d, "%20") {
          assert rest[0] == '2' && rest[1] == '0';
          DecodeKeepsLead(s[1..]);
          var t := s[1..];
          assert rest[1..] == DecodeSpaces(t[1..]);
          DecodeKeepsLead(t[1..]);
          assert false;
        }
      }
    }
  }

  /** A space in front is encoded as `%20`. */
  lemma EncodeAfterSpace(e: string)
    ensures EncodeSpaces(" " + e) == "%20" + EncodeSpaces(e)
  {
    assert (" " + e)[1..] == e;
  }

  /** Any other character in front is kept as is. */
  lemma EncodeAfterChar(c: char, e: string)
    requires c != ' '
    ensures EncodeSpaces([c] + e) == [c] + EncodeSpaces(e)
  {
    assert ([c] + e)[1..] == e;
  }

  /** Encoding undoes decoding for every text without a space, so a stored
      `%20`-encoded path comes back from the name decoded from it. */
  lemma {:induction false} EncodeDecodeSpaces(s: string)
    ensures ' ' !in s ==> EncodeSpaces(DecodeSpaces(s)) == s
    decreases |s|
  {
    if |s| > 0 && ' ' !in s {
      if StartsWith(s, "%20") {
        var rest := s[3..];
        assert ' ' !in rest by { assert forall ch :: ch in rest ==> ch in s; }
        EncodeDecodeSpaces(rest);
        assert DecodeSpaces(s) == " " + DecodeSpaces(rest);
        EncodeAfterSpace(DecodeSpaces(rest));
        assert s == s[..3] + rest;
      } else {
        var rest := s[1..];
        assert ' ' !in rest by { assert forall ch :: ch in rest ==> ch in s; }
        EncodeDecodeSpaces(rest);
        assert DecodeSpaces(s) == [s[0]] + DecodeSpaces(rest);
        assert s[0] in s;
        EncodeAfterChar(s[0], DecodeSpaces(rest));
        assert s == [s[0]] + rest;
      }
    }
  }

  /** An encoded text starts with `20` only when the original did. */
  lemma EncodeStartsWithDigit(s: string)
    requires |EncodeSpaces(s)| >= 2 && EncodeSpaces(s)[0] == '2' && EncodeSpaces(s)[1] == '0'
    ensures |s| >= 2 && s[0] == '2' && s[1] == '0'
  {
    assert |s| > 0 && s[0] == '2';
    var e := EncodeSpaces(s[1..]);
    assert EncodeSpaces(s) == "2" + e;
    assert |s[1..]| > 0;
    assert s[1] == s[1..][0];
  }

  /** ASCII `toLowerCase` of one character. */
  function LowerChar(ch: char): char {
    if 'A' <= ch <= 'Z' then (ch as int + 32) as char else ch
  }

  /** `s.toLowerCase()` restricted to ASCII letters. */
  function Lower(s: string): string {
    seq(|s|, i requires 0 <= i < |s| => LowerChar(s[i]))
  }

  /** The white space and line terminators that `String.prototype.trim` removes. */
  predicate IsWhitespace(ch: char) {
    ch == ' ' || ch == '\t' || ch == '\n' || ch == '\r' || ch == '\U{B}' || ch == '\U{C}'
    || ch == '\U{A0}' || ch == '\U{1680}' || ('\U{2000}' <= ch <= '\U{200A}')
    || ch == '\U{2028}' || ch == '\U{2029}' || ch == '\U{202F}' || ch == '\U{205F}'
    || ch == '\U{3000}' || ch == '\U{FEFF}'
  }

  function TrimStart(s: string): (r: string)
    ensures |r| <= |s| && r == s[|s| - |r|..]
    ensures r == [] || !IsWhitespace(r[0])
    ensures forall i :: 0 <= i < |s| - |r| ==> IsWhitespace(s[i])
    decreases |s|
  {
    if |s| > 0 && IsWhitespace(s[0]) then TrimStart(s[1..]) else s
  }

  function TrimEnd(s: string): (r: string)
    ensures |r| <= |s| && r == s[..|r|]
    ensures r == [] || !IsWhitespace(r[|r| - 1])
    ensures forall i :: |r| <= i < |s| ==> IsWhitespace(s[i])
    decreases |s|
  {
    if |s| > 0 && IsWhitespace(s[|s| - 1]) then TrimEnd(s[..|s| - 1]) else s
  }

  /** `s.trim()`: empty exactly when every character is white space; otherwise
      it keeps the text between the first and the last other character. */
  function Trim(s: string): (r: string)
    ensures r == [] <==> forall i :: 0 <= i < |s| ==> IsWhitespace(s[i])
    ensures r != [] ==> !IsWhitespace(r[0]) && !IsWhitespace(r[|r| - 1])
    ensures s == [] || (!IsWhitespace(s[0]) && !IsWhitespace(s[|s| - 1])) ==> r == s
  {
    TrimEmptyIffWhite(s);
    var t := TrimStart(s);
    var r := TrimEnd(t);
    assert r != [] ==> r[0] == t[0];
    r
  }

  /** Trimming both ends leaves nothing exactly when every character is white. */
  lemma TrimEmptyIffWhite(s: string)
    ensures TrimEnd(TrimStart(s)) == [] <==> forall i :: 0 <= i < |s| ==> IsWhitespace(s[i])
  {
    var t := TrimStart(s);
    var r := TrimEnd(t);
    if r == [] {
      forall i | 0 <= i < |s| ensures IsWhitespace(s[i]) {
        assert |t| == 0;
      }
    } else {
      assert r[0] == t[0] && t[0] == s[|s| - |t|];
    }
  }

  /** Lexicographic order on code units: the plain comparison used for names. */
  predicate LexLe(s: string, t: string)
    decreases |s|
  {
    s == [] || (t != [] && (s[0] < t[0] || (s[0] == t[0] && LexLe(s[1..], t[1..]))))
  }

  lemma {:induction false} LexLeTotal(s: string, t: string)
    ensures LexLe(s, t) || LexLe(t, s)
    decreases |s|
  {
    if s != [] && t != [] && s[0] == t[0] {
      LexLeTotal(s[1..], t[1..]);
    }
  }

  lemma {:induction false} LexLeTransitive(s: string, t: string, u: string)
    requires LexLe(s, t) && LexLe(t, u)
    ensures LexLe(s, u)
    decreases |s|
  {
    if s != [] && s[0] == t[0] && t[0] == u[0] {
      LexLeTransitive(s[1..], t[1..], u[1..]);
    }
  }

  function DigitChar(d: nat): char
    requires d < 10
  {
    ('0' as int + d) as char
  }

  predicate IsDigit(ch: char) {
    '0' <= ch <= '9'
  }

  /** The decimal numeral of a natural number, without leading zeros. */
  function NatToString(n: nat): (r: string)
    ensures |r| >= 1 && forall i :: 0 <= i < |r| ==> IsDigit(r[i])
    ensures r[0] == '0' ==> n == 0
    decreases n
  {
    if n < 10 then [DigitChar(n)] else NatToString(n / 10) + [DigitChar(n % 10)]
  }

  /** `n.toString()` for an integer. */
  function IntToString(n: int): (r: string)
    ensures |r| >= 1 && (r[0] == '-' || IsDigit(r[0])) && IsDigit(r[|r| - 1])
    ensures r[0] == '-' <==> n < 0
  {
    if n < 0 then "-" + NatToString(-n) else NatToString(n)
  }

  /** The value of a string of decimal digits (most significant first). */
  function DigitsValue(s: string): nat
    requires forall i :: 0 <= i < |s| ==> IsDigit(s[i])
    decreases |s|
  {
    if |s| == 0 then 0
    else
      assert IsDigit(s[|s| - 1]);
      DigitsValue(s[..|s| - 1]) * 10 + (s[|s| - 1] as int - '0' as int)
  }

  /** Reading back a rendered numeral gives the number. */
  lemma {:induction false} DigitsValueOfNat(n: nat)
    ensures DigitsValue(NatToString(n)) == n
    decreases n
  {
    if n >= 10 {
      var r := NatToString(n);
      DigitsValueOfNat(n / 10);
      assert r[..|r| - 1] == NatToString(n / 10);
    }
  }
}
