/**
 * The Python string operations the core relies on, written out so that
 * their edge cases are visible: `lower()`, `strip()`, `split(",")`,
 * `split()`, `in`, `count()` and `str()` of an integer.  Lower-casing and
 * white space are restricted to the ASCII range.
 */
module Text {

  /** `str.lower()` on one character of the ASCII range. */
  function LowerChar(c: char): char {
    if 'A' <= c <= 'Z' then (c as int - 'A' as int + 'a' as int) as char else c
  }

  function Lower(s: string): (r: string)
    ensures |r| == |s|
    ensures forall i :: 0 <= i < |s| ==> r[i] == LowerChar(s[i])
  {
    seq(|s|, i requires 0 <= i < |s| => LowerChar(s[i]))
  }

  /** A string without ASCII capitals is its own `lower()`. */
  lemma LowerNoCapitals(s: string)
    requires forall i :: 0 <= i < |s| ==> !('A' <= s[i] <= 'Z')
    ensures Lower(s) == s
  {
  }

  /** Lower-casing twice is lower-casing once. */
  lemma LowerIdempotent(s: string)
    ensures Lower(Lower(s)) == Lower(s)
  {
  }

  /** `lower()` works character by character, so it distributes over concatenation. */
  lemma LowerAppend(a: string, b: string)
    ensures Lower(a + b) == Lower(a) + Lower(b)
  {
  }

  /** The ASCII characters Python's `str.isspace()` accepts. */
  predicate IsSpace(c: char) {
    c == ' ' || 9 <= c as int <= 13 || 28 <= c as int <= 31
  }

  predicate AllSpace(s: string) {
    forall i :: 0 <= i < |s| ==> IsSpace(s[i])
  }

  /** `str.lstrip()`: `s` without its leading white space. */
  function TrimLeft(s: string): (r: string)
    ensures |r| <= |s|
  {
    if s != [] && IsSpace(s[0]) then TrimLeft(s[1..]) else s
  }

  /** `lstrip()` drops a run of white space and keeps the rest of `s`, which does not start with white space. */
  lemma {:induction false} TrimLeftSpec(s: string)
    ensures TrimLeft(s) == s[|s| - |TrimLeft(s)|..]
    ensures TrimLeft(s) == [] || !IsSpace(TrimLeft(s)[0])
    ensures AllSpace(s[..|s| - |TrimLeft(s)|])
    decreases |s|
  {
    if s != [] && IsSpace(s[0]) {
      TrimLeftSpec(s[1..]);
      var r := TrimLeft(s[1..]);
      assert s[1..][|s| - 1 - |r|..] == s[|s| - |r|..];
      assert s[..|s| - |r|] == [s[0]] + s[1..][..|s| - 1 - |r|];
    }
  }

  /** `str.rstrip()`: `s` without its trailing white space. */
  function TrimRight(s: string): (r: string)
    ensures |r| <= |s|
  {
    if s != [] && IsSpace(s[|s| - 1]) then TrimRight(s[..|s| - 1]) else s
  }

  /** `rstrip()` keeps a prefix of `s` that does not end with white space and drops only white space. */
  lemma {:induction false} TrimRightSpec(s: string)
    ensures TrimRight(s) == s[..|TrimRight(s)|]
    ensures TrimRight(s) == [] || !IsSpace(TrimRight(s)[|TrimRight(s)| - 1])
    ensures AllSpace(s[|TrimRight(s)|..])
    decreases |s|
  {
    if s != [] && IsSpace(s[|s| - 1]) {
      var init := s[..|s| - 1];
      TrimRightSpec(init);
      var r := TrimRight(init);
      assert init[..|r|] == s[..|r|];
      assert s[|r|..] == init[|r|..] + [s[|s| - 1]];
    }
  }

  /** `str.strip()`: `s` without its leading and trailing white space. */
  function Strip(s: string): (r: string)
    ensures |r| <= |s|
  {
    TrimRight(TrimLeft(s))
  }

  /**
   * `strip()` leaves a string that neither starts nor ends with white space,
   * and it leaves nothing exactly when `s` is all white space.
   */
  lemma StripSpec(s: string)
    ensures Strip(s) == [] || (!IsSpace(Strip(s)[0]) && !IsSpace(Strip(s)[|Strip(s)| - 1]))
    ensures Strip(s) == [] <==> AllSpace(s)
  {
    TrimLeftSpec(s);
    var t := TrimLeft(s);
    TrimRightSpec(t);
    var r := TrimRight(t);
    if r != [] {
      assert r[0] == t[0];
      assert s[|s| - |t|] == t[0];
    } else {
      assert t[|r|..] == t;
      assert s[..|s| - |t|] == s;
    }
  }

  /** A string with no white space at either end is its own `strip()`. */
  lemma StripTrimmed(s: string)
    requires s == [] || (!IsSpace(s[0]) && !IsSpace(s[|s| - 1]))
    ensures Strip(s) == s
  {
    assert TrimLeft(s) == s;
  }

  /** `strip()` is idempotent. */
  lemma StripIdempotent(s: string)
    ensures Strip(Strip(s)) == Strip(s)
  {
    StripSpec(s);
    StripTrimmed(Strip(s));
  }

  /** A leading white-space character does not change `strip()`. */
  lemma StripSkipSpace(c: char, s: string)
    requires IsSpace(c)
    ensures Strip([c] + s) == Strip(s)
  {
    assert ([c] + s)[1..] == s;
  }

  /** `s.split(sep)`: the pieces between the separators, empty pieces included. */
  function Split(s: string, sep: char): (r: seq<string>)
    ensures |r| >= 1
  {
    if s == [] then [""]
    else
      var rest := Split(s[1..], sep);
      if s[0] == sep then [""] + rest
      else [[s[0]] + rest[0]] + rest[1..]
  }

  /** No piece of a split holds the separator. */
  lemma {:induction false} SplitPiecesLackSep(s: string, sep: char)
    ensures forall k :: 0 <= k < |Split(s, sep)| ==> sep !in Split(s, sep)[k]
  {
    if s != [] {
      SplitPiecesLackSep(s[1..], sep);
      var rest := Split(s[1..], sep);
      if s[0] != sep {
        var r := Split(s, sep);
        assert r[0] == [s[0]] + rest[0];
        assert forall k :: 1 <= k < |r| ==> r[k] == rest[k];
      }
    }
  }

  /** `sep.join(parts)`, the inverse of `Split`. */
  function Join(parts: seq<string>, sep: char): string {
    if parts == [] then ""
    else if |parts| == 1 then parts[0]
    else parts[0] + [sep] + Join(parts[1..], sep)
  }

  /** Joining the pieces of a split gives back the original string. */
  lemma {:induction false} JoinSplit(s: string, sep: char)
    ensures Join(Split(s, sep), sep) == s
  {
    if s != [] {
      var rest := Split(s[1..], sep);
      JoinSplit(s[1..], sep);
      if s[0] != sep {
        if |rest| == 1 {
          assert Split(s, sep) == [[s[0]] + rest[0]];
        } else {
          assert Split(s, sep) == [[s[0]] + rest[0]] + rest[1..];
          assert Split(s, sep)[1..] == rest[1..];
          assert Join(rest, sep) == rest[0] + [sep] + Join(rest[1..], sep);
        }
      } else {
        assert Split(s, sep) == [""] + rest;
        assert Split(s, sep)[1..] == rest;
      }
    }
  }

  lemma {:induction false} SplitCons(w: string, t: string, sep: char)
    requires sep !in w
    ensures Split(w + [sep] + t, sep) == [w] + Split(t, sep)
  {
    var s := w + [sep] + t;
    if w == [] {
      assert s[0] == sep && s[1..] == t;
    } else {
      assert s[0] == w[0] && s[1..] == w[1..] + [sep] + t;
      SplitCons(w[1..], t, sep);
      assert [w[0]] + w[1..] == w;
    }
  }

  lemma {:induction false} SplitNoSep(w: string, sep: char)
    requires sep !in w
    ensures Split(w, sep) == [w]
  {
    if w != [] {
      SplitNoSep(w[1..], sep);
      assert [w[0]] + w[1..] == w;
    }
  }

  /** Splitting a join of separator-free pieces gives back the pieces. */
  lemma {:induction false} SplitJoin(parts: seq<string>, sep: char)
    requires |parts| >= 1
    requires forall k :: 0 <= k < |parts| ==> sep !in parts[k]
    ensures Split(Join(parts, sep), sep) == parts
  {
    if |parts| == 1 {
      SplitNoSep(parts[0], sep);
    } else {
      SplitJoin(parts[1..], sep);
      SplitCons(parts[0], Join(parts[1..], sep), sep);
      assert [parts[0]] + parts[1..] == parts;
    }
  }

  /** The leading run of non-white-space characters of `s`. */
  function TakeWord(s: string): (w: string)
    ensures |w| <= |s|
    ensures s != [] && !IsSpace(s[0]) ==> w != []
  {
    if s == [] || IsSpace(s[0]) then [] else [s[0]] + TakeWord(s[1..])
  }

  /** The taken word is a prefix of `s` without white space, followed by white space or the end. */
  lemma {:induction false} TakeWordSpec(s: string)
    ensures TakeWord(s) == s[..|TakeWord(s)|]
    ensures forall i :: 0 <= i < |TakeWord(s)| ==> !IsSpace(TakeWord(s)[i])
    ensures |TakeWord(s)| == |s| || IsSpace(s[|TakeWord(s)|])
  {
    if s != [] && !IsSpace(s[0]) {
      TakeWordSpec(s[1..]);
      var w := TakeWord(s[1..]);
      assert s[1..][|w|..] == s[|w| + 1..];
      assert TakeWord(s) == [s[0]] + w;
    }
  }

  /** A token of `split()`: non-empty, without white space. */
  predicate IsWord(w: string) {
    w != [] && forall i :: 0 <= i < |w| ==> !IsSpace(w[i])
  }

  /** `s.split()`: the maximal runs of non-white-space characters, in order. */
  function Words(s: string): (r: seq<string>)
    decreases |s|
  {
    if s == [] then []
    else if IsSpace(s[0]) then Words(s[1..])
    else
      var w := TakeWord(s);
      [w] + Words(s[|w|..])
  }

  /** Every token of `split()` is a word. */
  lemma {:induction false} WordsAreWords(s: string)
    ensures forall k :: 0 <= k < |Words(s)| ==> IsWord(Words(s)[k])
    decreases |s|
  {
    if s != [] {
      if IsSpace(s[0]) {
        WordsAreWords(s[1..]);
      } else {
        var w := TakeWord(s);
        TakeWordSpec(s);
        WordsAreWords(s[|w|..]);
        var r := Words(s);
        assert r[0] == w;
        assert forall k :: 1 <= k < |r| ==> r[k] == Words(s[|w|..])[k - 1];
      }
    }
  }

  lemma {:induction false} TakeWordOf(w: string, rest: string)
    requires forall i :: 0 <= i < |w| ==> !IsSpace(w[i])
    requires rest == [] || IsSpace(rest[0])
    ensures TakeWord(w + rest) == w
  {
    if w != [] {
      assert (w + rest)[1..] == w[1..] + rest;
      TakeWordOf(w[1..], rest);
    }
  }

  /** A word followed by white space (or nothing) is the first token of `split()`. */
  lemma WordsCons(w: string, rest: string)
    requires IsWord(w)
    requires rest == [] || IsSpace(rest[0])
    ensures Words(w + rest) == [w] + Words(rest)
  {
    TakeWordOf(w, rest);
    assert (w + rest)[|w|..] == rest;
  }

  /** Leading white space does not change the tokens of `split()`. */
  lemma WordsSkipSpace(c: char, rest: string)
    requires IsSpace(c)
    ensures Words([c] + rest) == Words(rest)
  {
    assert ([c] + rest)[1..] == rest;
  }

  /** `set(s.split())`. */
  function WordSet(s: string): set<string> {
    set w | w in Words(s)
  }

  /** `p` is a prefix of `s`, compared character by character. */
  predicate IsPrefix(p: string, s: string) {
    |p| <= |s| && (p == [] || (p[0] == s[0] && IsPrefix(p[1..], s[1..])))
  }

  lemma {:induction false} IsPrefixIff(p: string, s: string)
    ensures IsPrefix(p, s) <==> |p| <= |s| && s[..|p|] == p
  {
    if p != [] && |p| <= |s| {
      IsPrefixIff(p[1..], s[1..]);
      assert s[..|p|] == [s[0]] + s[1..][..|p| - 1];
      assert p == [p[0]] + p[1..];
    }
  }

  /** Python's `sub in s`. */
  predicate Contains(s: string, sub: string)
    decreases |s|
  {
    IsPrefix(sub, s) || (s != [] && Contains(s[1..], sub))
  }

  /** `sub` occurs in `s` starting at index `i`. */
  ghost predicate OccursAt(s: string, sub: string, i: int) {
    0 <= i <= |s| - |sub| && s[i..i + |sub|] == sub
  }

  /** A slice of the tail of `s` is the corresponding slice of `s`. */
  lemma SliceOfTail(s: string, i: int, j: int)
    requires 1 <= i <= j <= |s|
    ensures s[1..][i - 1..j - 1] == s[i..j]
  {
  }

  /** `Contains` holds exactly when `sub` occurs at some index of `s`. */
  lemma {:induction false} ContainsIff(s: string, sub: string)
    ensures Contains(s, sub) <==> exists i :: OccursAt(s, sub, i)
    decreases |s|
  {
    IsPrefixIff(sub, s);
    if s == [] {
      if Contains(s, sub) { assert OccursAt(s, sub, 0); }
    } else {
      ContainsIff(s[1..], sub);
      if Contains(s, sub) {
        if IsPrefix(sub, s) {
          assert OccursAt(s, sub, 0);
        } else {
          var i :| OccursAt(s[1..], sub, i);
          SliceOfTail(s, i + 1, i + 1 + |sub|);
          assert OccursAt(s, sub, i + 1);
        }
      } else {
        forall i | OccursAt(s, sub, i) ensures false {
          if i > 0 {
            SliceOfTail(s, i, i + |sub|);
            assert OccursAt(s[1..], sub, i - 1);
          }
        }
      }
    }
  }

  /** A string that lacks the first character of a non-empty `sub` does not contain `sub`. */
  lemma {:induction false} ContainsFirstChar(s: string, sub: string)
    requires sub != []
    requires forall i :: 0 <= i < |s| ==> s[i] != sub[0]
    ensures !Contains(s, sub)
    decreases |s|
  {
    if s != [] {
      ContainsFirstChar(s[1..], sub);
    }
  }

  /** The characters `x`, `y` never stand side by side in `s`. */
  predicate NoPair(s: string, x: char, y: char) {
    forall i :: 0 <= i < |s| - 1 ==> !(s[i] == x && s[i + 1] == y)
  }

  /** The characters `x`, `y`, `z` never stand in a row in `s`. */
  predicate NoTriple(s: string, x: char, y: char, z: char) {
    forall i :: 0 <= i < |s| - 2 ==> !(s[i] == x && s[i + 1] == y && s[i + 2] == z)
  }

  /** `sub` stands, character by character, at index `n` of `s`. */
  predicate StandsAt(s: string, sub: string, n: int) {
    0 <= n && n + |sub| <= |s| && forall j :: 0 <= j < |sub| ==> s[n + j] == sub[j]
  }

  /** A string in which two consecutive characters of `sub` never stand side by side does not contain `sub`. */
  lemma NotContainsPair(s: string, sub: string, k: int)
    requires 0 <= k < |sub| - 1 && NoPair(s, sub[k], sub[k + 1])
    ensures !Contains(s, sub)
  {
    ContainsIff(s, sub);
    forall i | 0 <= i <= |s| - |sub| ensures !OccursAt(s, sub, i) {
      assert s[i..i + |sub|][k] == s[i + k] && s[i..i + |sub|][k + 1] == s[i + k + 1];
    }
  }

  /** The same with three consecutive characters of `sub`. */
  lemma NotContainsTriple(s: string, sub: string, k: int)
    requires 0 <= k < |sub| - 2 && NoTriple(s, sub[k], sub[k + 1], sub[k + 2])
    ensures !Contains(s, sub)
  {
    ContainsIff(s, sub);
    forall i | 0 <= i <= |s| - |sub| ensures !OccursAt(s, sub, i) {
      assert s[i..i + |sub|][k] == s[i + k] && s[i..i + |sub|][k + 1] == s[i + k + 1];
      assert s[i..i + |sub|][k + 2] == s[i + k + 2];
    }
  }

  /** `sub` occurs in `s` when it stands at some index. */
  lemma ContainsAt(s: string, sub: string, n: int)
    requires StandsAt(s, sub, n)
    ensures Contains(s, sub)
  {
    ContainsIff(s, sub);
    assert s[n..n + |sub|] == sub;
    assert OccursAt(s, sub, n);
  }

  /** The empty string occurs in every string. */
  lemma ContainsEmpty(s: string)
    ensures Contains(s, "")
  {
  }

  /** Python's `s.count(sub)`: non-overlapping occurrences, scanning from the left; `|s| + 1` for the empty `sub`. */
  function CountOcc(s: string, sub: string): nat
    decreases |s|
  {
    if sub == [] then |s| + 1
    else if IsPrefix(sub, s) then 1 + CountOcc(s[|sub|..], sub)
    else if s == [] then 0
    else CountOcc(s[1..], sub)
  }

  /** `s.count(sub) >= 1` exactly when `sub in s`. */
  lemma {:induction false} CountOccPositive(s: string, sub: string)
    ensures CountOcc(s, sub) >= 1 <==> Contains(s, sub)
    decreases |s|
  {
    if sub != [] && !IsPrefix(sub, s) && s != [] {
      CountOccPositive(s[1..], sub);
    }
  }

  /** Skipping a prefix that lacks the first character of `sub` does not change the count. */
  lemma {:induction false} CountOccSkip(a: string, rest: string, sub: string)
    requires sub != []
    requires forall i :: 0 <= i < |a| ==> a[i] != sub[0]
    ensures CountOcc(a + rest, sub) == CountOcc(rest, sub)
    decreases |a|
  {
    if a == [] {
      assert a + rest == rest;
    } else {
      assert (a + rest)[0] == a[0];
      assert (a + rest)[1..] == a[1..] + rest;
      CountOccSkip(a[1..], rest, sub);
    }
  }

  /**
   * `sub` is counted once when it stands at index `n`, nothing before `n`
   * is its first character, and it does not occur after that occurrence.
   */
  lemma CountOccOnce(s: string, sub: string, n: int)
    requires sub != [] && StandsAt(s, sub, n)
    requires forall i :: 0 <= i < n ==> s[i] != sub[0]
    requires !Contains(s[n + |sub|..], sub)
    ensures CountOcc(s, sub) == 1
  {
    assert s == s[..n] + s[n..];
    CountOccSkip(s[..n], s[n..], sub);
    assert s[n..][..|sub|] == sub;
    IsPrefixIff(sub, s[n..]);
    assert s[n..][|sub|..] == s[n + |sub|..];
    CountOccPositive(s[n + |sub|..], sub);
  }

  /** `s[:n]`. */
  function Take(s: string, n: nat): (r: string)
    ensures |r| == if n < |s| then n else |s|
    ensures r == s[..|r|]
  {
    if n < |s| then s[..n] else s
  }

  function DigitChar(d: nat): (c: char)
    requires d < 10
    ensures '0' <= c <= '9'
  {
    ('0' as int + d) as char
  }

  /** `str(n)` for a natural number: decimal digits, no leading zero. */
  function NatToString(n: nat): (r: string)
    ensures |r| >= 1
    ensures n >= 10 ==> |r| >= 2
    ensures forall i :: 0 <= i < |r| ==> '0' <= r[i] <= '9'
  {
    if n < 10 then [DigitChar(n)] else NatToString(n / 10) + [DigitChar(n % 10)]
  }

  /** `str(i)` for any integer. */
  function IntToString(i: int): (r: string)
    ensures |r| >= 1
  {
    if i < 0 then "-" + NatToString(-i) else NatToString(i)
  }

  /** Different naturals have different decimal strings. */
  lemma {:induction false} NatToStringInjective(a: nat, b: nat)
    requires NatToString(a) == NatToString(b)
    ensures a == b
  {
    var sa, sb := NatToString(a), NatToString(b);
    if a >= 10 && b >= 10 {
      assert sa[|sa| - 1] == DigitChar(a % 10);
      assert sb[|sb| - 1] == DigitChar(b % 10);
      assert sa[..|sa| - 1] == NatToString(a / 10);
      assert sb[..|sb| - 1] == NatToString(b / 10);
      NatToStringInjective(a / 10, b / 10);
    } else if a < 10 && b < 10 {
      assert sa[0] == DigitChar(a) && sb[0] == DigitChar(b);
    }
  }

  /** Different integers have different decimal strings. */
  lemma IntToStringInjective(a: int, b: int)
    requires IntToString(a) == IntToString(b)
    ensures a == b
  {
    assert a < 0 ==> IntToString(a)[0] == '-';
    assert b < 0 ==> IntToString(b)[0] == '-';
    assert a >= 0 ==> IntToString(a)[0] != '-';
    assert b >= 0 ==> IntToString(b)[0] != '-';
    if a < 0 && b < 0 {
      assert IntToString(a)[1..] == NatToString(-a);
      assert IntToString(b)[1..] == NatToString(-b);
      NatToStringInjective(-a, -b);
    } else if a >= 0 && b >= 0 {
      NatToStringInjective(a, b);
    }
  }
}
