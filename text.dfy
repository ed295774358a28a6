/**
 * The handful of Python string operations the chatbot relies on, restated
 * over `seq<char>`: `str.lower()`, `str.strip()`, `str.startswith`, the
 * substring test `sub in s` and `"\n".join(parts)`.
 *
 * Case mapping and whitespace follow Python on ASCII characters only; every
 * other character is left as it is.
 */
module Text {

  /** Python's `str.isspace()` on one ASCII character: space, `\t` `\n` `\v`
      `\f` `\r` (9..13) and the separators 28..31. */
  predicate IsSpace(c: char) {
    c == ' ' || (9 <= c as int <= 13) || (28 <= c as int <= 31)
  }

  predicate AllSpace(s: string) {
    forall i :: 0 <= i < |s| ==> IsSpace(s[i])
  }

  predicate IsUpper(c: char) {
    'A' <= c <= 'Z'
  }

  /** ASCII lower-casing of one character. */
  function LowerChar(c: char): char {
    if IsUpper(c) then (c as int + 32) as char else c
  }

  /** `s.lower()`: every character lower-cased in place. */
  function ToLower(s: string): string {
    seq(|s|, i requires 0 <= i < |s| => LowerChar(s[i]))
  }

  /** `s.startswith(p)` */
  predicate StartsWith(s: string, p: string) {
    |p| <= |s| && s[..|p|] == p
  }

  /** `s.endswith(p)` */
  predicate EndsWith(s: string, p: string) {
    |p| <= |s| && s[|s| - |p|..] == p
  }

  /** `sub` occurs in `s` starting at offset `i`. */
  predicate OccursAt(s: string, sub: string, i: int) {
    0 <= i && i + |sub| <= |s| && s[i..i + |sub|] == sub
  }

  /** `sub in s`: computed by trying every offset from the left. */
  function Contains(s: string, sub: string): (b: bool)
    ensures b <==> exists i :: OccursAt(s, sub, i)
    decreases |s|
  {
    if StartsWith(s, sub) then
      assert OccursAt(s, sub, 0);
      true
    else if |s| <= |sub| then
      assert forall i :: OccursAt(s, sub, i) ==> i == 0;
      false
    else
      var b := Contains(s[1..], sub);
      assert b ==> exists i :: OccursAt(s, sub, i) by {
        if b {
          var j :| OccursAt(s[1..], sub, j);
          assert s[j + 1..j + 1 + |sub|] == s[1..][j..j + |sub|];
          assert OccursAt(s, sub, j + 1);
        }
      }
      assert (exists i :: OccursAt(s, sub, i)) ==> b by {
        if exists i :: OccursAt(s, sub, i) {
          var i :| OccursAt(s, sub, i);
          assert i != 0;
          assert s[1..][i - 1..i - 1 + |sub|] == s[i..i + |sub|];
          assert OccursAt(s[1..], sub, i - 1);
        }
      }
      b
  }

  /** The number of whitespace characters `s.lstrip()` removes. */
  function LeadingSpaces(s: string): (n: nat)
    ensures n <= |s|
    ensures AllSpace(s[..n])
    ensures n < |s| ==> !IsSpace(s[n])
  {
    if |s| > 0 && IsSpace(s[0]) then
      var m := LeadingSpaces(s[1..]);
      assert s[..1 + m] == [s[0]] + s[1..][..m];
      1 + m
    else
      0
  }

  /** The number of whitespace characters `s.rstrip()` removes. */
  function TrailingSpaces(s: string): (n: nat)
    ensures n <= |s|
    ensures AllSpace(s[|s| - n..])
    ensures n < |s| ==> !IsSpace(s[|s| - 1 - n])
  {
    if |s| > 0 && IsSpace(s[|s| - 1]) then
      var init := s[..|s| - 1];
      var m := TrailingSpaces(init);
      assert s[|s| - (1 + m)..] == init[|init| - m..] + [s[|s| - 1]];
      1 + m
    else
      0
  }

  /** `s.strip()`: the whitespace at both ends removed. */
  function Strip(s: string): string {
    var rest := s[LeadingSpaces(s)..];
    rest[..|rest| - TrailingSpaces(rest)]
  }

  /** What `Strip` keeps: the part of `s` right after its leading
      whitespace, followed in `s` by whitespace only, and neither starting
      nor ending with whitespace. */
  lemma StripSpec(s: string)
    ensures var r, a := Strip(s), LeadingSpaces(s);
      a + |r| <= |s| && s[a..a + |r|] == r && AllSpace(s[..a]) && AllSpace(s[a + |r|..]) &&
      (r != [] ==> !IsSpace(r[0]) && !IsSpace(r[|r| - 1]))
  {
    var a := LeadingSpaces(s);
    var rest := s[a..];
    var n := |rest| - TrailingSpaces(rest);
    var r := rest[..n];
    assert r == Strip(s);
    assert s[a..a + n] == r;
    assert AllSpace(s[a + n..]) by {
      assert s[a + n..] == rest[n..];
    }
    assert r != [] ==> !IsSpace(r[0]) && !IsSpace(r[n - 1]) by {
      if r != [] {
        assert r[0] == s[a];
        assert r[n - 1] == rest[n - 1];
      }
    }
  }

  /** `"\n".join(parts)` */
  function JoinLines(parts: seq<string>): string {
    if |parts| == 0 then ""
    else if |parts| == 1 then parts[0]
    else parts[0] + "\n" + JoinLines(parts[1..])
  }

  /** Stripping twice removes nothing more. */
  lemma StripIdempotent(s: string)
    ensures Strip(Strip(s)) == Strip(s)
  {
    var r := Strip(s);
    StripSpec(s);
    assert LeadingSpaces(r) == 0 by {
      assert r != [] ==> !IsSpace(r[0]);
    }
    assert r[0..] == r;
    assert TrailingSpaces(r) == 0 by {
      assert r != [] ==> !IsSpace(r[|r| - 1]);
    }
    assert r[..|r| - 0] == r;
  }

  /** Lower-casing works character by character, so it distributes over
      concatenation. */
  lemma ToLowerAppend(a: string, b: string)
    ensures ToLower(a + b) == ToLower(a) + ToLower(b)
  {
  }

  /** Joining one more part adds exactly one separator and that part. */
  lemma {:induction false} JoinLinesSnoc(parts: seq<string>, last: string)
    requires parts != []
    ensures JoinLines(parts + [last]) == JoinLines(parts) + "\n" + last
  {
    if |parts| == 1 {
      assert parts + [last] == [parts[0], last];
    } else {
      assert (parts + [last])[1..] == parts[1..] + [last];
      JoinLinesSnoc(parts[1..], last);
    }
  }

  /** The joined text opens with the first part and closes with the last. */
  lemma {:induction false} JoinLinesEnds(parts: seq<string>)
    requires parts != []
    ensures StartsWith(JoinLines(parts), parts[0])
    ensures EndsWith(JoinLines(parts), parts[|parts| - 1])
  {
    if |parts| > 1 {
      JoinLinesEnds(parts[1..]);
      var tail := JoinLines(parts[1..]);
      var whole := parts[0] + "\n" + tail;
      assert whole[|whole| - |parts[|parts| - 1]|..] == tail[|tail| - |parts[|parts| - 1]|..];
    }
  }

  /** Joining adds exactly one separator between neighbouring parts. */
  lemma {:induction false} JoinLinesLength(parts: seq<string>)
    requires parts != []
    ensures |JoinLines(parts)| == TotalLength(parts) + |parts| - 1
  {
    if |parts| > 1 {
      JoinLinesLength(parts[1..]);
    }
  }

  /** The sum of the lengths of `parts`. */
  function TotalLength(parts: seq<string>): nat {
    if parts == [] then 0 else |parts[0]| + TotalLength(parts[1..])
  }
}
