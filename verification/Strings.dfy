/** Characters and strings as the repository's helpers treat them, over ASCII. */
module Strings {

  predicate IsUpper(c: char) {
    'A' <= c <= 'Z'
  }

  predicate IsLower(c: char) {
    'a' <= c <= 'z'
  }

  function ToLower(c: char): (r: char)
    ensures !IsUpper(r) && (r == '_' <==> c == '_') && (IsUpper(c) ==> IsLower(r)) && (!IsUpper(c) ==> r == c)
  {
    if IsUpper(c) then c - 'A' + 'a' else c
  }

  function ToUpper(c: char): (r: char)
    ensures (r == '_' <==> c == '_') && (IsLower(c) <==> c != r) && ToLower(r) == ToLower(c)
  {
    if IsLower(c) then c - 'a' + 'A' else c
  }

  function UpperCase(s: string): string {
    seq(|s|, i requires 0 <= i < |s| => ToUpper(s[i]))
  }

  predicate EqualsIgnoreCase(s: string, t: string) {
    |s| == |t| && forall i :: 0 <= i < |s| ==> ToLower(s[i]) == ToLower(t[i])
  }

  function TrimStart(s: string): string {
    if |s| > 0 && s[0] <= ' ' then TrimStart(s[1..]) else s
  }

  function TrimEnd(s: string): string {
    if |s| > 0 && s[|s| - 1] <= ' ' then TrimEnd(s[..|s| - 1]) else s
  }

  function Trim(s: string): string {
    TrimEnd(TrimStart(s))
  }

  predicate Blank(s: string) {
    forall i :: 0 <= i < |s| ==> s[i] <= ' '
  }

  lemma {:induction false} TrimStartCuts(s: string) returns (k: nat)
    ensures k <= |s| && TrimStart(s) == s[k..] && Blank(s[..k]) && (k < |s| ==> s[k] > ' ')
  {
    if |s| > 0 && s[0] <= ' ' {
      var rest := TrimStartCuts(s[1..]);
      k := rest + 1;
      assert s[..k] == [s[0]] + s[1..][..rest];
    } else {
      k := 0;
    }
  }

  lemma {:induction false} TrimEndCuts(s: string) returns (m: nat)
    ensures m <= |s| && TrimEnd(s) == s[..m] && Blank(s[m..]) && (m > 0 ==> s[m - 1] > ' ')
  {
    if |s| > 0 && s[|s| - 1] <= ' ' {
      var front := s[..|s| - 1];
      m := TrimEndCuts(front);
      assert s[m..] == front[m..] + [s[|s| - 1]];
    } else {
      m := |s|;
    }
  }

  /** Trimming cuts off blanks at both ends and no more. */
  lemma TrimCuts(s: string) returns (k: nat, m: nat)
    ensures k <= m <= |s| && Trim(s) == s[k..m]
    ensures forall j :: 0 <= j < k || m <= j < |s| ==> s[j] <= ' '
    ensures k < m ==> s[k] > ' ' && s[m - 1] > ' '
  {
    k := TrimStartCuts(s);
    var length := TrimEndCuts(s[k..]);
    m := k + length;
    assert s[m..] == s[k..][length..];
    assert forall j :: 0 <= j < k ==> s[..k][j] == s[j];
    assert forall j :: m <= j < |s| ==> s[m..][j - m] == s[j];
  }

  /** StringUtils.isEmpty: blank, or one of two words. */
  predicate IsEmpty(s: string) {
    var t := Trim(s);
    t == "" || EqualsIgnoreCase(t, "undefined") || EqualsIgnoreCase(t, "null")
  }

  lemma {:induction false} TrimmedStart(s: string, c: char)
    requires c in s
    ensures c <= ' ' || c in TrimStart(s)
  {
    if s[0] <= ' ' && c != s[0] {
      var i :| 0 <= i < |s| && s[i] == c;
      assert s[1..][i - 1] == c;
      TrimmedStart(s[1..], c);
    }
  }

  lemma {:induction false} TrimmedEnd(s: string, c: char)
    requires c in s
    ensures c <= ' ' || c in TrimEnd(s)
  {
    if s[|s| - 1] <= ' ' && c != s[|s| - 1] {
      var i :| 0 <= i < |s| && s[i] == c;
      assert s[..|s| - 1][i] == c;
      TrimmedEnd(s[..|s| - 1], c);
    }
  }

  /** An empty string in this sense holds blanks and letters only. */
  lemma EmptyHasLettersOnly(s: string, c: char)
    requires IsEmpty(s) && c in s
    ensures c <= ' ' || IsLower(ToLower(c))
  {
    TrimmedStart(s, c);
    if c > ' ' {
      TrimmedEnd(TrimStart(s), c);
      var t := Trim(s);
      var i :| 0 <= i < |t| && t[i] == c;
      if EqualsIgnoreCase(t, "undefined") {
        assert ToLower(t[i]) == ToLower("undefined"[i]);
      } else {
        assert ToLower(t[i]) == ToLower("null"[i]);
      }
    }
  }
}
