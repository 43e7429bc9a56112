/**
 * The few string operations of the Go standard library that the core relies on:
 * `fmt`'s `%d` verb, `strings.Split` with a one-character separator,
 * `strings.TrimSuffix` and `path.Base`.
 */
module Text {

  // ---------------------------------------------------------------------------
  // Decimal rendering (the `%d` verb)
  // ---------------------------------------------------------------------------

  predicate IsDigit(c: char) {
    '0' <= c <= '9'
  }

  predicate IsDigits(s: string) {
    forall i :: 0 <= i < |s| ==> IsDigit(s[i])
  }

  function Digit(d: nat): (c: char)
    requires d < 10
    ensures IsDigit(c)
  {
    (48 + d) as char
  }

  /** The numeric value of a string of decimal digits (the inverse of NatToString). */
  function DecimalValue(s: string): nat
    requires IsDigits(s)
  {
    if |s| == 0 then 0
    else 10 * DecimalValue(s[..|s| - 1]) + (s[|s| - 1] as int - 48)
  }

  /** `fmt.Sprintf("%d", n)`: the digits of n, without leading zeros. */
  function NatToString(n: nat): (r: string)
    ensures |r| >= 1 && IsDigits(r)
    ensures r[0] == '0' ==> r == "0"
    decreases n
  {
    if n < 10 then [Digit(n)] else NatToString(n / 10) + [Digit(n % 10)]
  }

  lemma {:induction false} DecimalRoundTrip(n: nat)
    ensures DecimalValue(NatToString(n)) == n
    decreases n
  {
    if n >= 10 {
      DecimalRoundTrip(n / 10);
      var s := NatToString(n / 10);
      assert (s + [Digit(n % 10)])[..|s|] == s;
    }
  }

  /** Distinct numbers print differently, so names built from indices are unique. */
  lemma NatToStringInjective(m: nat, n: nat)
    ensures NatToString(m) == NatToString(n) <==> m == n
  {
    DecimalRoundTrip(m);
    DecimalRoundTrip(n);
  }

  // ---------------------------------------------------------------------------
  // strings.Split with a one-character separator, and its inverse Join
  // ---------------------------------------------------------------------------

  /**
   * `strings.Split(s, string(sep))`: the maximal separator-free pieces of s, in
   * order; a string without the separator (also the empty string) is one piece.
   */
  function Split(s: string, sep: char): (r: seq<string>)
    ensures |r| >= 1
    ensures forall i :: 0 <= i < |r| ==> sep !in r[i]
    decreases |s|
  {
    if |s| == 0 then [""]
    else if s[0] == sep then [""] + Split(s[1..], sep)
    else
      var rest := Split(s[1..], sep);
      [[s[0]] + rest[0]] + rest[1..]
  }

  /** `strings.Join(parts, string(sep))`. */
  function Join(parts: seq<string>, sep: char): string
    requires |parts| >= 1
    decreases |parts|
  {
    if |parts| == 1 then parts[0] else parts[0] + [sep] + Join(parts[1..], sep)
  }

  lemma {:induction false} SplitSeparatorFree(s: string, sep: char)
    requires sep !in s
    ensures Split(s, sep) == [s]
    decreases |s|
  {
    if |s| > 0 {
      SplitSeparatorFree(s[1..], sep);
      assert [s[0]] + s[1..] == s;
    }
  }

  lemma {:induction false} SplitAfterPiece(a: string, sep: char, b: string)
    requires sep !in a
    ensures Split(a + [sep] + b, sep) == [a] + Split(b, sep)
    decreases |a|
  {
    if |a| == 0 {
      assert a + [sep] + b == [sep] + b;
      assert ([sep] + b)[1..] == b;
    } else {
      SplitAfterPiece(a[1..], sep, b);
      assert (a + [sep] + b)[1..] == a[1..] + [sep] + b;
      assert [a[0]] + a[1..] == a;
    }
  }

  /** Splitting undoes joining separator-free pieces. */
  lemma {:induction false} SplitJoin(parts: seq<string>, sep: char)
    requires |parts| >= 1
    requires forall i :: 0 <= i < |parts| ==> sep !in parts[i]
    ensures Split(Join(parts, sep), sep) == parts
    decreases |parts|
  {
    if |parts| == 1 {
      SplitSeparatorFree(parts[0], sep);
    } else {
      SplitJoin(parts[1..], sep);
      SplitAfterPiece(parts[0], sep, Join(parts[1..], sep));
    }
  }

  /** Joining undoes splitting: no character of the input is lost. */
  lemma {:induction false} JoinSplit(s: string, sep: char)
    ensures Join(Split(s, sep), sep) == s
    decreases |s|
  {
    if |s| > 0 {
      JoinSplit(s[1..], sep);
      var rest := Split(s[1..], sep);
      if s[0] == sep {
        assert Split(s, sep)[1..] == rest;
      } else {
        var parts := Split(s, sep);
        assert parts[0] == [s[0]] + rest[0];
        if |rest| > 1 {
          assert parts[1..] == rest[1..];
          assert Join(rest, sep) == rest[0] + [sep] + Join(rest[1..], sep);
        }
      }
    }
  }

  // ---------------------------------------------------------------------------
  // strings.TrimSuffix
  // ---------------------------------------------------------------------------

  predicate HasSuffix(s: string, suffix: string) {
    |suffix| <= |s| && s[|s| - |suffix|..] == suffix
  }

  /** `strings.TrimSuffix(s, suffix)`: s without one trailing occurrence of suffix. */
  function TrimSuffix(s: string, suffix: string): (r: string)
    ensures HasSuffix(s, suffix) ==> r + suffix == s
    ensures !HasSuffix(s, suffix) ==> r == s
  {
    if HasSuffix(s, suffix) then s[..|s| - |suffix|] else s
  }

  // ---------------------------------------------------------------------------
  // path.Base
  // ---------------------------------------------------------------------------

  /** p with every trailing '/' removed. */
  function StripTrailingSlashes(p: string): (r: string)
    ensures |r| <= |p| && r == p[..|r|]
    ensures r == "" || r[|r| - 1] != '/'
    ensures forall i :: |r| <= i < |p| ==> p[i] == '/'
    decreases |p|
  {
    if |p| > 0 && p[|p| - 1] == '/' then
      var r := StripTrailingSlashes(p[..|p| - 1]);
      assert p[..|p| - 1][..|r|] == p[..|r|];
      r
    else p
  }

  /** The index of the last '/' in p, or -1 when there is none. */
  function LastSlash(p: string): (k: int)
    ensures -1 <= k < |p|
    ensures k >= 0 ==> p[k] == '/'
    ensures forall i :: k < i < |p| ==> p[i] != '/'
    decreases |p|
  {
    if |p| == 0 then -1
    else if p[|p| - 1] == '/' then |p| - 1
    else LastSlash(p[..|p| - 1])
  }

  /** The part of p after its last '/' (all of p when it has none). */
  function AfterLastSlash(p: string): (r: string)
    ensures '/' !in r
    ensures |r| <= |p| && r == p[|p| - |r|..]
    ensures |r| < |p| ==> p[|p| - |r| - 1] == '/'
  {
    var k := LastSlash(p);
    SlashFreeTail(p, k);
    p[k + 1..]
  }

  lemma SlashFreeTail(p: string, k: int)
    requires -1 <= k < |p|
    requires forall i :: k < i < |p| ==> p[i] != '/'
    ensures '/' !in p[k + 1..]
  {
    var r := p[k + 1..];
    forall i | 0 <= i < |r| ensures r[i] != '/' {
      assert r[i] == p[k + 1 + i];
    }
  }

  /**
   * `path.Base(p)`: the last element of a slash-separated path. Trailing slashes
   * are ignored; the empty path gives "." and a path of slashes only gives "/".
   */
  function Base(p: string): (r: string)
    ensures r != ""
    ensures r == "/" || r == "." || '/' !in r
    ensures p == "" ==> r == "."
    ensures p != "" && (forall i :: 0 <= i < |p| ==> p[i] == '/') ==> r == "/"
  {
    if p == "" then "."
    else
      var stripped := StripTrailingSlashes(p);
      var last := AfterLastSlash(stripped);
      if last == "" then "/" else last
  }

  /** Trailing slashes do not change the last element: the base of `p/` is the base of `p`. */
  lemma BaseIgnoresTrailingSlash(p: string)
    requires p != ""
    ensures Base(p + "/") == Base(p)
  {
    var q := p + "/";
    assert q[..|q| - 1] == p;
    assert StripTrailingSlashes(q) == StripTrailingSlashes(p);
  }

  /** The last element of `dir/name` is `name`, whatever the directory part. */
  lemma BaseOfChild(dir: string, name: string)
    requires name != "" && '/' !in name
    ensures Base(dir + "/" + name) == name
  {
    var p := dir + "/" + name;
    assert p[|p| - 1] == name[|name| - 1];
    assert StripTrailingSlashes(p) == p;
    AfterLastSlashOfChild(dir, name);
  }

  lemma AfterLastSlashOfChild(dir: string, name: string)
    requires '/' !in name
    ensures AfterLastSlash(dir + "/" + name) == name
  {
    var p := dir + "/" + name;
    assert p[|dir|] == '/';
    assert forall i :: |dir| < i < |p| ==> p[i] == name[i - |dir| - 1];
    assert LastSlash(p) == |dir|;
    assert p[|dir| + 1..] == name;
  }

  /** A plain name with no slash is its own base. */
  lemma BaseOfName(name: string)
    requires name != "" && '/' !in name
    ensures Base(name) == name
  {
    assert StripTrailingSlashes(name) == name;
    AfterLastSlashOfName(name);
  }

  lemma AfterLastSlashOfName(name: string)
    requires '/' !in name
    ensures AfterLastSlash(name) == name
  {
    assert LastSlash(name) == -1;
  }
}
