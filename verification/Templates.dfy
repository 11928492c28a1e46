/** StringUtils.format: placeholders filled by index juggling, against a reading from left to right. */
module Templates {
  import opened Strings

  /** A placeholder begins at i. */
  predicate PlaceholderAt(s: string, i: nat) {
    i + 1 < |s| && s[i] == '{' && s[i + 1] == '}'
  }

  predicate BackslashAt(s: string, i: nat) {
    i < |s| && s[i] == '\\'
  }

  /** The reading of a pattern from position i with the arguments from the k-th on: a doubled
      backslash before a placeholder stands for one backslash, an escaped placeholder for its brace,
      and a placeholder for the next argument. */
  function Read(s: string, i: nat, args: seq<string>, k: nat): string
    requires i <= |s| && k <= |args|
    decreases |s| - i
  {
    if i == |s| || k == |args| then s[i..]
    else if BackslashAt(s, i) && BackslashAt(s, i + 1) && PlaceholderAt(s, i + 2) then
      "\\" + args[k] + Read(s, i + 4, args, k + 1)
    else if BackslashAt(s, i) && PlaceholderAt(s, i + 1) then "{" + Read(s, i + 2, args, k)
    else if PlaceholderAt(s, i) then args[k] + Read(s, i + 2, args, k + 1)
    else [s[i]] + Read(s, i + 1, args, k)
  }

  /** Neither a placeholder nor its escapes begin at i. */
  predicate Plain(s: string, i: nat) {
    && !PlaceholderAt(s, i)
    && !(BackslashAt(s, i) && PlaceholderAt(s, i + 1))
    && !(BackslashAt(s, i) && BackslashAt(s, i + 1) && PlaceholderAt(s, i + 2))
  }

  /** No placeholder begins in [from, to). */
  predicate NoneBetween(s: string, from: nat, upto: nat) {
    forall i: nat :: from <= i < upto ==> !PlaceholderAt(s, i)
  }

  /** strPattern.indexOf("{}", from), or -1. */
  method IndexOfPlaceholder(s: string, from: nat) returns (i: int)
    requires from <= |s|
    ensures i == -1 ==> NoneBetween(s, from, |s|)
    ensures i != -1 ==> from <= i && PlaceholderAt(s, i) && NoneBetween(s, from, i)
  {
    i := from;
    while i < |s|
      invariant from <= i <= |s| && NoneBetween(s, from, i)
    {
      if PlaceholderAt(s, i) {
        return;
      }
      i := i + 1;
    }
    return -1;
  }

  lemma CopiesOne(s: string, i: nat, args: seq<string>, k: nat)
    requires i < |s| && k < |args| && Plain(s, i)
    ensures Read(s, i, args, k) == [s[i]] + Read(s, i + 1, args, k)
  {}

  lemma TakesOneMore(s: string, from: nat, upto: nat, rest: string)
    requires from < upto <= |s|
    ensures s[from..upto] + rest == [s[from]] + (s[from + 1..upto] + rest)
  {
    assert s[from..upto] == [s[from]] + s[from + 1..upto];
  }

  /** Up to the next placeholder and its escapes, reading copies. */
  lemma {:induction false} CopiesUpTo(s: string, from: nat, upto: nat, args: seq<string>, k: nat)
    requires from <= upto <= |s| && k < |args| && forall i: nat :: from <= i < upto ==> Plain(s, i)
    ensures Read(s, from, args, k) == s[from..upto] + Read(s, upto, args, k)
    decreases upto - from
  {
    if from < upto {
      CopiesOne(s, from, args, k);
      CopiesUpTo(s, from + 1, upto, args, k);
      TakesOneMore(s, from, upto, Read(s, upto, args, k));
    }
  }

  /** What is appended for the next placeholder at d, and where reading resumes, with which argument. */
  datatype Move = Move(text: string, position: nat, arg: nat)

  function MoveAt(s: string, from: nat, d: nat, args: seq<string>, k: nat): Move
    requires PlaceholderAt(s, d) && from <= d && k < |args| && (from == d ==> d == 0 || s[d - 1] != '\\')
  {
    if d > 0 && s[d - 1] == '\\' then
      if d > 1 && s[d - 2] == '\\' then Move(s[from..d - 1] + args[k], d + 2, k + 1)
      else Move(s[from..d - 1] + "{", d + 1, k)
    else Move(s[from..d] + args[k], d + 2, k + 1)
  }

  lemma ReadsDoubled(s: string, from: nat, d: nat, args: seq<string>, k: nat)
    requires PlaceholderAt(s, d) && NoneBetween(s, from, d) && from + 2 <= d && k < |args|
    requires s[d - 1] == '\\' && s[d - 2] == '\\'
    ensures Read(s, from, args, k) == s[from..d - 1] + args[k] + Read(s, d + 2, args, k + 1)
  {
    CopiesUpTo(s, from, d - 2, args, k);
    assert Read(s, d - 2, args, k) == "\\" + args[k] + Read(s, d + 2, args, k + 1);
    assert s[from..d - 1] == s[from..d - 2] + "\\";
  }

  lemma ReadsEscaped(s: string, from: nat, d: nat, args: seq<string>, k: nat)
    requires PlaceholderAt(s, d) && NoneBetween(s, from, d) && from + 1 <= d && k < |args|
    requires s[d - 1] == '\\' && (from + 1 == d || s[d - 2] != '\\')
    ensures Read(s, from, args, k) == s[from..d - 1] + "{" + Read(s, d + 1, args, k)
  {
    CopiesUpTo(s, from, d - 1, args, k);
    Reassociate(s[from..d - 1], "{", Read(s, d + 1, args, k));
  }

  lemma ReadsPlaceholder(s: string, from: nat, d: nat, args: seq<string>, k: nat)
    requires PlaceholderAt(s, d) && NoneBetween(s, from, d) && from <= d && k < |args|
    requires from == d || s[d - 1] != '\\'
    ensures Read(s, from, args, k) == s[from..d] + args[k] + Read(s, d + 2, args, k + 1)
  {
    CopiesUpTo(s, from, d, args, k);
    Reassociate(s[from..d], args[k], Read(s, d + 2, args, k + 1));
  }

  /** A placeholder found from a position on is read as the loop handles it, although the loop looks
      for backslashes also before that position: none precedes it. */
  lemma MoveReads(s: string, from: nat, d: nat, args: seq<string>, k: nat)
    requires PlaceholderAt(s, d) && NoneBetween(s, from, d) && from <= d && k < |args|
    requires from > 0 ==> s[from - 1] != '\\'
    ensures var m := MoveAt(s, from, d, args, k);
      Read(s, from, args, k) == m.text + Read(s, m.position, args, m.arg)
  {
    if d > 0 && s[d - 1] == '\\' {
      if d > 1 && s[d - 2] == '\\' {
        ReadsDoubled(s, from, d, args, k);
      } else {
        ReadsEscaped(s, from, d, args, k);
      }
    } else {
      ReadsPlaceholder(s, from, d, args, k);
    }
  }

  lemma ReadsToTheEnd(s: string, from: nat, args: seq<string>, k: nat)
    requires from <= |s| && k <= |args| && NoneBetween(s, from, |s|)
    ensures Read(s, from, args, k) == s[from..]
  {
    if k < |args| {
      CopiesUpTo(s, from, |s|, args, k);
      assert s[from..|s|] == s[from..];
    }
  }

  lemma EmptyHasNoPlaceholder(s: string, args: seq<string>)
    requires |args| == 0 || IsEmpty(s)
    ensures Read(s, 0, args, 0) == s
  {
    assert s[0..] == s;
    if |args| > 0 {
      forall i: nat | i < |s| ensures !PlaceholderAt(s, i) {
        EmptyHasLettersOnly(s, s[i]);
      }
      ReadsToTheEnd(s, 0, args, 0);
    }
  }

  /** format: no index out of range, an end despite argIndex--, and the reading from left to right. */
  method Format(strPattern: string, argArray: seq<string>) returns (r: string)
    ensures r == Read(strPattern, 0, argArray, 0)
  {
    if |argArray| == 0 || IsEmpty(strPattern) {
      EmptyHasNoPlaceholder(strPattern, argArray);
      return strPattern;
    }
    var sbuf := "";
    var handledPosition := 0;
    var argIndex := 0;
    ghost var whole := Read(strPattern, 0, argArray, 0);
    ghost var ahead := whole;
    while argIndex < |argArray|
      invariant 0 <= handledPosition <= |strPattern| && 0 <= argIndex <= |argArray|
      invariant handledPosition > 0 ==> strPattern[handledPosition - 1] != '\\'
      invariant handledPosition == 0 ==> sbuf == ""
      invariant ahead == Read(strPattern, handledPosition, argArray, argIndex)
      invariant whole == sbuf + ahead
      decreases |strPattern| - handledPosition
    {
      var delimIndex := IndexOfPlaceholder(strPattern, handledPosition);
      if delimIndex == -1 {
        ReadsToTheEnd(strPattern, handledPosition, argArray, argIndex);
        if handledPosition == 0 {
          return strPattern;
        }
        sbuf := sbuf + strPattern[handledPosition..];
        return sbuf;
      }
      MoveReads(strPattern, handledPosition, delimIndex, argArray, argIndex);
      ghost var m := MoveAt(strPattern, handledPosition, delimIndex, argArray, argIndex);
      ahead := Read(strPattern, m.position, argArray, m.arg);
      Reassociate(sbuf, m.text, ahead);
      sbuf, handledPosition, argIndex := Append(strPattern, sbuf, handledPosition, delimIndex, argArray, argIndex);
    }
    sbuf := sbuf + strPattern[handledPosition..];
    return sbuf;
  }

  /** The loop's body once a placeholder has been found. */
  method Append(strPattern: string, sbuf: string, handledPosition: nat, delimIndex: nat, argArray: seq<string>,
      argIndex: nat)
    returns (sbuf': string, handledPosition': nat, argIndex': nat)
    requires PlaceholderAt(strPattern, delimIndex) && handledPosition <= delimIndex && argIndex < |argArray|
    requires handledPosition > 0 ==> strPattern[handledPosition - 1] != '\\'
    ensures var m := MoveAt(strPattern, handledPosition, delimIndex, argArray, argIndex);
      sbuf' == sbuf + m.text && handledPosition' == m.position && argIndex' == m.arg
    ensures handledPosition < handledPosition' <= |strPattern| && strPattern[handledPosition' - 1] != '\\'
  {
    sbuf', argIndex' := sbuf, argIndex;
    if delimIndex > 0 && strPattern[delimIndex - 1] == '\\' {
      if delimIndex > 1 && strPattern[delimIndex - 2] == '\\' {
        sbuf' := sbuf' + (strPattern[handledPosition..delimIndex - 1] + argArray[argIndex]);
        handledPosition' := delimIndex + 2;
        argIndex' := argIndex' + 1;
      } else {
        sbuf' := sbuf' + (strPattern[handledPosition..delimIndex - 1] + "{");
        handledPosition' := delimIndex + 1;
      }
    } else {
      sbuf' := sbuf' + (strPattern[handledPosition..delimIndex] + argArray[argIndex]);
      handledPosition' := delimIndex + 2;
      argIndex' := argIndex' + 1;
    }
  }

  lemma Reassociate(a: string, b: string, c: string)
    ensures a + (b + c) == a + b + c
  {}

  // ----- what the reading amounts to

  /** Pieces of text with a placeholder between each two. */
  function Template(pieces: seq<string>): string {
    if |pieces| == 0 then "" else if |pieces| == 1 then pieces[0] else pieces[0] + "{}" + Template(pieces[1..])
  }

  /** The same pieces with the arguments between them; where they run out the placeholders stay. */
  function Filled(pieces: seq<string>, args: seq<string>, k: nat): string
    requires k <= |args|
  {
    if k == |args| then Template(pieces)
    else if |pieces| == 0 then ""
    else if |pieces| == 1 then pieces[0]
    else pieces[0] + args[k] + Filled(pieces[1..], args, k + 1)
  }

  predicate Unescaped(piece: string) {
    '{' !in piece && '\\' !in piece
  }

  lemma PieceIsPlain(s: string, from: nat, piece: string)
    requires from + |piece| <= |s| && s[from..from + |piece|] == piece && Unescaped(piece)
    ensures forall i: nat :: from <= i < from + |piece| ==> Plain(s, i) && !PlaceholderAt(s, i)
  {
    forall i: nat | from <= i < from + |piece| ensures Plain(s, i) && !PlaceholderAt(s, i) {
      assert s[i] == piece[i - from] && s[i] in piece;
    }
  }

  lemma PieceThenRest(s: string, from: nat, piece: string, rest: string)
    requires from <= |s| && s[from..] == piece + "{}" + rest
    ensures var d := from + |piece|;
      d + 2 <= |s| && s[from..d] == piece && PlaceholderAt(s, d) && s[d + 2..] == rest
  {
    var t := s[from..];
    var d := from + |piece|;
    assert t[|piece|] == '{' && t[|piece| + 1] == '}';
    assert t[..|piece|] == piece && t[|piece| + 2..] == rest;
  }

  lemma ReadsPiece(s: string, from: nat, piece: string, rest: string, args: seq<string>, k: nat)
    requires from <= |s| && s[from..] == piece + "{}" + rest && Unescaped(piece) && k < |args|
    ensures var next := from + |piece| + 2;
      next <= |s| && s[next..] == rest && Read(s, from, args, k) == piece + args[k] + Read(s, next, args, k + 1)
  {
    var d := from + |piece|;
    PieceThenRest(s, from, piece, rest);
    PieceIsPlain(s, from, piece);
    CopiesUpTo(s, from, d, args, k);
    Reassociate(piece, args[k], Read(s, d + 2, args, k + 1));
  }

  /** Text free of braces and backslashes is copied, and the placeholders between such pieces take
      the arguments in order. */
  lemma {:induction false} FillsInOrder(s: string, from: nat, pieces: seq<string>, args: seq<string>, k: nat)
    requires forall p :: p in pieces ==> Unescaped(p)
    requires from <= |s| && s[from..] == Template(pieces) && k <= |args|
    ensures Read(s, from, args, k) == Filled(pieces, args, k)
    decreases |pieces|
  {
    if k < |args| && |pieces| == 1 {
      assert s[from..|s|] == s[from..];
      PieceIsPlain(s, from, pieces[0]);
      CopiesUpTo(s, from, |s|, args, k);
    } else if k < |args| && |pieces| > 1 {
      ReadsPiece(s, from, pieces[0], Template(pieces[1..]), args, k);
      FillsInOrder(s, from + |pieces[0]| + 2, pieces[1..], args, k + 1);
    }
  }

  /** An escaped placeholder loses its backslash and leaves its argument to the next one. */
  lemma EscapeKeepsArgument(s: string, d: nat, args: seq<string>, k: nat)
    requires PlaceholderAt(s, d + 1) && BackslashAt(s, d) && k < |args|
    ensures Read(s, d, args, k) == "{}" + Read(s, d + 3, args, k)
  {
    assert !PlaceholderAt(s, d + 2);
    assert Read(s, d + 2, args, k) == [s[d + 2]] + Read(s, d + 3, args, k);
  }

  /** A doubled backslash comes out as one, and the placeholder behind it takes its argument. */
  lemma DoubledEscapeFills(s: string, d: nat, args: seq<string>, k: nat)
    requires PlaceholderAt(s, d + 2) && BackslashAt(s, d) && BackslashAt(s, d + 1) && k < |args|
    ensures Read(s, d, args, k) == "\\" + args[k] + Read(s, d + 4, args, k + 1)
  {}
}
