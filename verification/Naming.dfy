/** Camel case to underscores and back, over ASCII. */
module Naming {
  import opened Strings

  /** What a character after the first becomes. */
  function Spread(c: char): string {
    if IsUpper(c) then ['_', ToLower(c)] else [c]
  }

  function Underscore(s: string): string {
    if |s| == 0 then ""
    else if |s| == 1 then [ToLower(s[0])]
    else Underscore(s[..|s| - 1]) + Spread(s[|s| - 1])
  }

  /** The builder and the pending flag after a prefix. */
  function CamelSoFar(u: string): (r: (string, bool)) {
    if |u| == 0 then ("", false)
    else
      var (before, flag) := CamelSoFar(u[..|u| - 1]);
      var ch := u[|u| - 1];
      if ch == '_' then (before, true)
      else if flag then (before + [ToUpper(ch)], false)
      else (before + [ch], false)
  }

  function Camel(u: string): string {
    CamelSoFar(u).0
  }

  method UnderscoreName(camelCaseName: string) returns (result: string)
    ensures result == Underscore(camelCaseName)
  {
    result := "";
    if |camelCaseName| > 0 {
      result := result + [ToLower(camelCaseName[0])];
      for i := 1 to |camelCaseName|
        invariant result == Underscore(camelCaseName[..i])
      {
        var ch := camelCaseName[i];
        assert camelCaseName[..i + 1][..i] == camelCaseName[..i];
        if IsUpper(ch) {
          result := result + "_";
          result := result + [ToLower(ch)];
        } else {
          result := result + [ch];
        }
      }
      assert camelCaseName[..|camelCaseName|] == camelCaseName;
    }
  }

  method CamelCaseName(underscoreName: string) returns (result: string)
    ensures result == Camel(underscoreName)
  {
    result := "";
    if |underscoreName| > 0 {
      var flag := false;
      assert underscoreName[..0] == "";
      for i := 0 to |underscoreName|
        invariant (result, flag) == CamelSoFar(underscoreName[..i])
      {
        var ch := underscoreName[i];
        assert underscoreName[..i + 1][..i] == underscoreName[..i];
        if '_' == ch {
          flag := true;
        } else {
          if flag {
            result := result + [ToUpper(ch)];
            flag := false;
          } else {
            result := result + [ch];
          }
        }
      }
      assert underscoreName[..|underscoreName|] == underscoreName;
    }
  }

  // ----- round trips

  lemma CamelAfterSpread(u: string, c: char)
    requires c != '_' && !CamelSoFar(u).1
    ensures CamelSoFar(u + Spread(c)) == (CamelSoFar(u).0 + [c], false)
  {
    if IsUpper(c) {
      assert u + Spread(c) == (u + ['_']) + [ToLower(c)];
      assert (u + ['_'])[..|u|] == u;
      assert ((u + ['_']) + [ToLower(c)])[..|u| + 1] == u + ['_'];
    } else {
      assert (u + [c])[..|u|] == u;
    }
  }

  lemma CamelOfOne(c: char)
    requires c != '_'
    ensures CamelSoFar([c]) == ([c], false)
  {
    var u := [c];
    assert u[..|u| - 1] == "";
    assert CamelSoFar("") == ("", false);
    assert "" + [c] == [c];
  }

  lemma {:induction false} CamelOfUnderscore(s: string)
    requires '_' !in s && (s == "" || !IsUpper(s[0]))
    ensures CamelSoFar(Underscore(s)) == (s, false)
  {
    if |s| == 1 {
      CamelOfOne(s[0]);
      assert s == [s[0]];
    } else if |s| > 1 {
      var front, last := s[..|s| - 1], s[|s| - 1];
      assert front + [last] == s;
      assert last in s;
      CamelOfUnderscore(front);
      CamelAfterSpread(Underscore(front), last);
    }
  }

  lemma {:induction false} CamelHasNoUnderscore(u: string)
    ensures '_' !in Camel(u)
  {
    if |u| > 0 {
      CamelHasNoUnderscore(u[..|u| - 1]);
    }
  }

  lemma {:induction false} CamelKeepsFirst(u: string)
    requires |u| > 0 && u[0] != '_'
    ensures |Camel(u)| > 0 && Camel(u)[0] == u[0]
  {
    if |u| == 1 {
      assert u == [u[0]];
      CamelOfOne(u[0]);
    } else {
      CamelKeepsFirst(u[..|u| - 1]);
    }
  }

  lemma {:induction false} UnderscoreKeepsFirst(s: string)
    requires |s| > 0
    ensures |Underscore(s)| > 0 && Underscore(s)[0] == ToLower(s[0])
  {
    if |s| > 1 {
      UnderscoreKeepsFirst(s[..|s| - 1]);
    }
  }

  /** Camel case survives exactly when it has no underscore and does not start with a capital. */
  lemma CamelRoundTripExactlyWhen(s: string)
    ensures Camel(Underscore(s)) == s <==> '_' !in s && (s == "" || !IsUpper(s[0]))
  {
    if '_' !in s && (s == "" || !IsUpper(s[0])) {
      CamelOfUnderscore(s);
    }
    if Camel(Underscore(s)) == s {
      CamelHasNoUnderscore(Underscore(s));
      if s != "" {
        assert s[0] in s;
        UnderscoreKeepsFirst(s);
        CamelKeepsFirst(Underscore(s));
      }
    }
  }

  /** No capitals, no leading underscore, and a letter after every underscore, except that the last
      may still await its own. */
  predicate SnakeSoFar(u: string) {
    && (forall i :: 0 <= i < |u| ==> !IsUpper(u[i]))
    && (|u| > 0 ==> u[0] != '_')
    && forall i :: 0 <= i < |u| - 1 && u[i] == '_' ==> IsLower(u[i + 1])
  }

  predicate IsSnake(u: string) {
    SnakeSoFar(u) && (|u| > 0 ==> u[|u| - 1] != '_')
  }

  lemma {:induction false} UnderscoreIsSnake(s: string)
    requires '_' !in s
    ensures IsSnake(Underscore(s))
  {
    if |s| > 0 {
      assert s[|s| - 1] in s;
    }
    if |s| > 1 {
      UnderscoreIsSnake(s[..|s| - 1]);
      UnderscoreKeepsFirst(s[..|s| - 1]);
    }
  }

  lemma UnderscoreGrows(s: string, c: char)
    ensures Underscore(s + [c]) == if s == "" then [ToLower(c)] else Underscore(s) + Spread(c)
  {
    assert (s + [c])[..|s|] == s;
  }

  lemma CamelGrows(front: string, last: char)
    ensures var (camel, flag) := CamelSoFar(front);
      CamelSoFar(front + [last])
      == if last == '_' then (camel, true) else (camel + [if flag then ToUpper(last) else last], false)
  {
    assert (front + [last])[..|front|] == front;
  }

  predicate EndsOpen(u: string) {
    |u| > 0 && u[|u| - 1] == '_'
  }

  lemma SnakeFront(front: string, last: char)
    requires SnakeSoFar(front + [last])
    ensures SnakeSoFar(front) && !IsUpper(last)
    ensures last == '_' ==> front != "" && !EndsOpen(front)
    ensures EndsOpen(front) ==> IsLower(last)
  {
    var u := front + [last];
    assert u[|front|] == last && forall i :: 0 <= i < |front| ==> u[i] == front[i];
  }

  /** The camel text holds the snake text up to a last underscore that awaits its letter. */
  predicate Restores(u: string, camel: string, flag: bool) {
    && flag == EndsOpen(u)
    && Underscore(camel) == (if flag then u[..|u| - 1] else u)
    && (camel == "" <==> u == "")
  }

  lemma RestoresAfterOpen(front: string, camel: string, last: char)
    requires Restores(front, camel, true) && IsLower(last)
    ensures Restores(front + [last], camel + [ToUpper(last)], false)
  {
    UnderscoreGrows(camel, ToUpper(last));
    assert Spread(ToUpper(last)) == ['_'] + [last];
    assert front == front[..|front| - 1] + ['_'];
  }

  lemma RestoresAfterClosed(front: string, camel: string, last: char)
    requires Restores(front, camel, false) && last != '_' && !IsUpper(last)
    ensures Restores(front + [last], camel + [last], false)
  {
    UnderscoreGrows(camel, last);
    assert Spread(last) == [last];
  }

  lemma {:induction false} UnderscoreOfCamel(u: string)
    requires SnakeSoFar(u)
    ensures Restores(u, CamelSoFar(u).0, CamelSoFar(u).1)
  {
    if |u| > 0 {
      var front, last := u[..|u| - 1], u[|u| - 1];
      assert u == front + [last];
      SnakeFront(front, last);
      UnderscoreOfCamel(front);
      CamelGrows(front, last);
      var (camel, flag) := CamelSoFar(front);
      if flag {
        RestoresAfterOpen(front, camel, last);
      } else if last == '_' {
        assert u[..|u| - 1] == front;
      } else {
        RestoresAfterClosed(front, camel, last);
      }
    }
  }

  /** Underscored names survive exactly when they have no capitals, do not start with an underscore,
      and have a small letter after every underscore. */
  lemma UnderscoreRoundTripExactlyWhen(u: string)
    ensures Underscore(Camel(u)) == u <==> IsSnake(u)
  {
    if IsSnake(u) {
      UnderscoreOfCamel(u);
    }
    if Underscore(Camel(u)) == u {
      CamelHasNoUnderscore(u);
      UnderscoreIsSnake(Camel(u));
    }
  }
}
