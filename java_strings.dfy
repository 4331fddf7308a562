// The parts of java.lang.String and java.lang.Character that the backend's
// validation and normalisation rely on.
module JavaStrings {
  import opened Wrappers

  /** `Character.isWhitespace`: the separators except the no-break ones, and the ASCII controls 9-13 and 28-31. */
  predicate IsWhitespace(c: char)
  {
    var n := c as int;
    (9 <= n <= 13) || (28 <= n <= 32) || n == 0x1680
    || (0x2000 <= n <= 0x2006) || (0x2008 <= n <= 0x200A)
    || n == 0x2028 || n == 0x2029 || n == 0x205F || n == 0x3000
  }

  /** `String.isBlank`: empty, or only white space. */
  predicate IsBlank(s: string)
  {
    forall i :: 0 <= i < |s| ==> IsWhitespace(s[i])
  }

  /** A Java `String` reference that is null or blank. */
  predicate NullOrBlank(s: Option<string>)
  {
    s.None? || IsBlank(s.value)
  }

  /** A character that `String.trim` removes: any code point up to U+0020. */
  predicate Trimmable(c: char)
  {
    c <= ' '
  }

  function TrimStart(s: string): string
    decreases |s|
  {
    if |s| > 0 && Trimmable(s[0]) then TrimStart(s[1..]) else s
  }

  function TrimEnd(s: string): string
    decreases |s|
  {
    if |s| > 0 && Trimmable(s[|s| - 1]) then TrimEnd(s[..|s| - 1]) else s
  }

  /** `String.trim`. */
  function Trim(s: string): string
  {
    TrimEnd(TrimStart(s))
  }

  /** A string that `trim` leaves alone: empty, or both ends above U+0020. */
  predicate IsTrimmed(s: string)
  {
    |s| == 0 || (!Trimmable(s[0]) && !Trimmable(s[|s| - 1]))
  }

  /** `TrimStart` drops a prefix of trimmable characters and stops at the first other one. */
  lemma {:induction false} TrimStartCut(s: string) returns (i: nat)
    ensures i <= |s| && TrimStart(s) == s[i..]
    ensures forall k :: 0 <= k < i ==> Trimmable(s[k])
    ensures i < |s| ==> !Trimmable(s[i])
    decreases |s|
  {
    if |s| > 0 && Trimmable(s[0]) {
      var i' := TrimStartCut(s[1..]);
      i := i' + 1;
      assert s[1..][i'..] == s[i..];
      forall k | 0 <= k < i ensures Trimmable(s[k]) {
        if k > 0 { assert s[k] == s[1..][k - 1]; }
      }
      if i < |s| { assert s[i] == s[1..][i']; }
    } else {
      i := 0;
    }
  }

  /** `TrimEnd` drops a suffix of trimmable characters and stops at the last other one. */
  lemma {:induction false} TrimEndCut(s: string) returns (j: nat)
    ensures j <= |s| && TrimEnd(s) == s[..j]
    ensures forall k :: j <= k < |s| ==> Trimmable(s[k])
    ensures 0 < j ==> !Trimmable(s[j - 1])
    decreases |s|
  {
    if |s| > 0 && Trimmable(s[|s| - 1]) {
      var t := s[..|s| - 1];
      j := TrimEndCut(t);
      assert t[..j] == s[..j];
      forall k | j <= k < |s| ensures Trimmable(s[k]) {
        if k < |t| { assert s[k] == t[k]; }
      }
      if 0 < j { assert s[j - 1] == t[j - 1]; }
    } else {
      j := |s|;
    }
  }

  /** The bounds of the slice that `trim` keeps. */
  lemma TrimBounds(s: string) returns (i: nat, e: nat)
    ensures i <= e <= |s| && Trim(s) == s[i..e]
    ensures forall k :: 0 <= k < i ==> Trimmable(s[k])
    ensures forall k :: e <= k < |s| ==> Trimmable(s[k])
    ensures i < e ==> !Trimmable(s[i]) && !Trimmable(s[e - 1])
  {
    i := TrimStartCut(s);
    var u := s[i..];
    var j := TrimEndCut(u);
    e := i + j;
    assert u[..j] == s[i..e];
    forall k | e <= k < |s| ensures Trimmable(s[k]) {
      assert s[k] == u[k - i];
    }
    if i < e {
      assert s[i] == u[0] && s[e - 1] == u[j - 1];
    }
  }

  /**
   * `trim` removes a run of characters up to U+0020 from each end and
   * nothing else: the result is a slice of the input with no trimmable
   * character at either end.
   */
  lemma TrimIsSlice(s: string)
    ensures exists i, j ::
              && 0 <= i <= j <= |s| && Trim(s) == s[i..j]
              && (forall k :: 0 <= k < i ==> Trimmable(s[k]))
              && (forall k :: j <= k < |s| ==> Trimmable(s[k]))
    ensures IsTrimmed(Trim(s))
  {
    var i, e := TrimBounds(s);
    assert Trim(s)[0..] == s[i..e];
  }

  lemma {:induction false} TrimStartOfTrimmed(s: string)
    requires |s| == 0 || !Trimmable(s[0])
    ensures TrimStart(s) == s
  {
  }

  lemma {:induction false} TrimEndOfTrimmed(s: string)
    requires |s| == 0 || !Trimmable(s[|s| - 1])
    ensures TrimEnd(s) == s
  {
  }

  /** A trimmed string is a fixed point of `trim`. */
  lemma TrimOfTrimmed(s: string)
    requires IsTrimmed(s)
    ensures Trim(s) == s
  {
    TrimStartOfTrimmed(s);
    TrimEndOfTrimmed(s);
  }

  /** `trim` is idempotent. */
  lemma TrimIdempotent(s: string)
    ensures Trim(Trim(s)) == Trim(s)
  {
    TrimIsSlice(s);
    TrimOfTrimmed(Trim(s));
  }

  /** ASCII case mapping of one character (`Character.toUpperCase` restricted to a-z). */
  function UpperChar(c: char): char
  {
    if 'a' <= c <= 'z' then (c as int - 'a' as int + 'A' as int) as char else c
  }

  function LowerChar(c: char): char
  {
    if 'A' <= c <= 'Z' then (c as int - 'A' as int + 'a' as int) as char else c
  }

  /** `String.toUpperCase`, for ASCII letters. */
  function ToUpper(s: string): (r: string)
    ensures |r| == |s|
    ensures forall i :: 0 <= i < |s| ==> r[i] == UpperChar(s[i])
    decreases |s|
  {
    if |s| == 0 then [] else [UpperChar(s[0])] + ToUpper(s[1..])
  }

  /** `String.toLowerCase`, for ASCII letters. */
  function ToLower(s: string): (r: string)
    ensures |r| == |s|
    ensures forall i :: 0 <= i < |s| ==> r[i] == LowerChar(s[i])
    decreases |s|
  {
    if |s| == 0 then [] else [LowerChar(s[0])] + ToLower(s[1..])
  }

  /** Lower-casing twice is lower-casing once. */
  lemma ToLowerIdempotent(s: string)
    ensures ToLower(ToLower(s)) == ToLower(s)
  {
  }

  lemma ToUpperIdempotent(s: string)
    ensures ToUpper(ToUpper(s)) == ToUpper(s)
  {
  }

  /** Case mapping never turns a character above U+0020 into one that `trim` removes, or back. */
  lemma CaseKeepsTrimmed(s: string)
    requires IsTrimmed(s)
    ensures IsTrimmed(ToLower(s)) && IsTrimmed(ToUpper(s))
  {
    if |s| > 0 {
      var n := |s| - 1;
      CaseKeepsTrimmable(s[0]);
      CaseKeepsTrimmable(s[n]);
      assert ToLower(s)[0] == LowerChar(s[0]) && ToLower(s)[n] == LowerChar(s[n]);
      assert ToUpper(s)[0] == UpperChar(s[0]) && ToUpper(s)[n] == UpperChar(s[n]);
    }
  }

  lemma CaseKeepsTrimmable(c: char)
    ensures Trimmable(LowerChar(c)) <==> Trimmable(c)
    ensures Trimmable(UpperChar(c)) <==> Trimmable(c)
  {
  }

  lemma CaseKeepsBlank(s: string)
    ensures IsBlank(ToUpper(s)) <==> IsBlank(s)
  {
    assert forall i :: 0 <= i < |s| ==> (IsWhitespace(ToUpper(s)[i]) <==> IsWhitespace(s[i]));
  }

  /** `String.lastIndexOf(c)`: the greatest index holding `c`, or -1. */
  function LastIndexOf(s: string, c: char): (r: int)
    ensures -1 <= r < |s|
    ensures r >= 0 ==> s[r] == c
    ensures forall k :: r < k < |s| ==> s[k] != c
    decreases |s|
  {
    if |s| == 0 then -1
    else if s[|s| - 1] == c then |s| - 1
    else LastIndexOf(s[..|s| - 1], c)
  }

  /** Java's `+` on a string and a possibly-null reference: null prints as "null". */
  function Concat(s: string, t: Option<string>): string
  {
    s + (match t case Some(v) => v case None => "null")
  }

  /** `Long.toString` of a value. */
  function IntToString(n: int): (r: string)
    ensures |r| >= 1
  {
    if n < 0 then "-" + NatToString(-n) else NatToString(n)
  }

  function NatToString(n: nat): (r: string)
    ensures |r| >= 1
    ensures forall i :: 0 <= i < |r| ==> '0' <= r[i] <= '9'
  {
    if n < 10 then [Digit(n)] else NatToString(n / 10) + [Digit(n % 10)]
  }

  function Digit(d: nat): (c: char)
    requires d < 10
    ensures '0' <= c <= '9'
  {
    "0123456789"[d]
  }
}
