/** checkPackages: from a set of package names, keep those not contained in another, while the set is
    changed under the scan and visited in any order. */
module Packages {
  import opened Strings

  /** The name lies below the package: it extends it by a dot. */
  predicate Below(name: string, pack: string) {
    pack + "." <= name
  }

  /** Names the scan passes over: empty ones, among them the words "null" and "undefined", and those
      with a leading dot. */
  predicate Skipped(name: string) {
    IsEmpty(name) || name == "." || "." <= name
  }

  /** A name without its trailing dot, of which one is dropped. */
  function Normal(name: string): string {
    if |name| > 0 && name[|name| - 1] == '.' then name[..|name| - 1] else name
  }

  function Normals(names: set<string>): set<string> {
    set n | n in names && !Skipped(n) :: Normal(n)
  }

  predicate BelowSome(name: string, packages: set<string>) {
    exists r :: r in packages && Below(name, r)
  }

  function Passed(names: set<string>): set<string> {
    set n | n in names && Skipped(n)
  }

  /** What ought to remain: the names passed over, and the normal names below no other, except that a
      name below a word passed over is not added, only kept if it was there. */
  function Reduced(names: set<string>): set<string> {
    Passed(names)
    + set m | m in Normals(names) && !BelowSome(m, Normals(names)) && (m in names || !BelowSome(m, Passed(names)))
  }

  lemma BelowIsTransitive(a: string, b: string, c: string)
    requires Below(a, b) && Below(b, c)
    ensures Below(a, c)
  {
    assert c + "." == b[..|c| + 1];
    assert b + "." == a[..|b| + 1];
    assert a[..|c| + 1] == (b + ".")[..|c| + 1] == b[..|c| + 1];
  }

  lemma NormalStartsWithoutDot(name: string)
    requires !Skipped(name)
    ensures |Normal(name)| > 0 && Normal(name)[0] != '.'
  {
    assert IsEmpty("");
  }

  /** Names passed over lie below no normal name. */
  lemma SkippedStay(skipped: string, name: string)
    requires Skipped(skipped) && !Skipped(name)
    ensures !Below(skipped, Normal(name))
  {
    NormalStartsWithoutDot(name);
    if Below(skipped, Normal(name)) {
      assert skipped[|Normal(name)|] == '.' && skipped[0] == Normal(name)[0];
      if IsEmpty(skipped) {
        EmptyHasLettersOnly(skipped, '.');
      }
    }
  }

  lemma WithoutTrailingDot(name: string)
    requires !Skipped(name)
    ensures name == Normal(name) || Below(name, Normal(name))
  {}

  /** Of the names done so far none has anything below it in the set, and each is in the set or
      below something there. Otherwise the set holds the names passed over and those yet to be done;
      only what lies below a name done has left it, and only what lies below no word has joined. */
  ghost predicate Reducing(names: set<string>, done: set<string>, packages: set<string>) {
    && Passed(names) <= packages
    && (forall x :: x in packages ==> (x in names && (Skipped(x) || x !in done)) || x in Normals(done))
    && (forall x :: x in packages ==> !BelowSome(x, Normals(done)))
    && (forall n :: n in Normals(done) ==> CoveredBy(n, packages))
    && (forall x :: x in packages ==> x in names || !BelowSome(x, Passed(names)))
    && (forall x :: x in names ==> x in packages || BelowSome(x, Normals(done)))
  }

  predicate CoveredBy(name: string, packages: set<string>) {
    name in packages || BelowSome(name, packages)
  }

  /** One name done: whatever lay below it is gone, and it joins unless it lies below something. */
  function Inserted(packages: set<string>, name: string): set<string> {
    var kept := set x | x in packages && !Below(x, name);
    if BelowSome(name, packages) then kept else kept + {name}
  }

  lemma InsertedStaysCovered(packages: set<string>, name: string, n: string)
    requires n == name || CoveredBy(n, packages)
    ensures CoveredBy(n, Inserted(packages, name))
  {
    var packages' := Inserted(packages, name);
    if r :| r in packages && Below(name, r) {
      assert r in packages' by {
        if Below(r, name) {
          BelowIsTransitive(name, r, name);
        }
      }
    }
    assert CoveredBy(name, packages');
    if n != name && n !in packages' {
      if n in packages {
        CoverPassesOn(n, name, packages');
      } else {
        var r :| r in packages && Below(n, r);
        if r !in packages' {
          BelowIsTransitive(n, r, name);
          CoverPassesOn(n, name, packages');
        }
      }
    }
  }

  lemma CoverPassesOn(n: string, name: string, packages: set<string>)
    requires Below(n, name) && CoveredBy(name, packages)
    ensures CoveredBy(n, packages)
  {
    if name !in packages {
      var r :| r in packages && Below(name, r);
      BelowIsTransitive(n, name, r);
    }
  }

  lemma InsertKeepsReducing(names: set<string>, done: set<string>, packages: set<string>, original: string)
    requires Reducing(names, done, packages) && original in names && !Skipped(original)
    ensures Reducing(names, done + {original}, Inserted(packages, Normal(original)))
  {
    var name := Normal(original);
    var packages' := Inserted(packages, name);
    var done' := done + {original};
    assert Normals(done') == Normals(done) + {name};
    forall n | n in Normals(done') ensures CoveredBy(n, packages') {
      InsertedStaysCovered(packages, name, n);
    }
    forall n | n in Passed(names) ensures n in packages' {
      SkippedStay(n, original);
    }
    WithoutTrailingDot(original);
    forall x | x in packages' ensures !BelowSome(x, Normals(done')) {
      InsertedLiesBelowNothing(packages, name, x, Normals(done));
    }
    forall x | x in packages' ensures x in names || !BelowSome(x, Passed(names)) {
      BelowOneOf(x, Passed(names), packages, {});
    }
    forall x | x in names ensures x in packages' || BelowSome(x, Normals(done')) {
      if x in packages && x !in packages' {
        assert Below(x, name);
      }
    }
  }

  lemma InsertedLiesBelowNothing(packages: set<string>, name: string, x: string, normals: set<string>)
    requires x in Inserted(packages, name)
    requires forall y :: y in packages ==> !BelowSome(y, normals)
    requires forall n :: n in normals ==> CoveredBy(n, packages)
    ensures !BelowSome(x, normals + {name})
  {
    if n :| n in normals + {name} && Below(x, n) {
      if x in packages {
        assert n in normals ==> BelowSome(x, normals);
      } else if n in normals {
        BelowCovered(packages, name, n);
      }
    }
  }

  lemma BelowCovered(packages: set<string>, name: string, n: string)
    requires Below(name, n) && CoveredBy(n, packages)
    ensures BelowSome(name, packages)
  {
    if n !in packages {
      var r :| r in packages && Below(n, r);
      BelowIsTransitive(name, n, r);
    }
  }

  lemma BelowOneOf(x: string, packages: set<string>, a: set<string>, b: set<string>)
    requires packages <= a + b
    ensures BelowSome(x, packages) ==> BelowSome(x, a) || BelowSome(x, b)
  {}

  lemma ReducedAtTheEnd(names: set<string>, packages: set<string>)
    requires Reducing(names, names, packages)
    ensures packages == Reduced(names)
  {
    forall x | x in Reduced(names) ensures x in packages {
      BelowOneOf(x, packages, Passed(names), Normals(names));
      assert x in Normals(names) ==> CoveredBy(x, packages);
    }
  }

  /** For any set of names and any order of visits the result is the same: the names passed over and
      the normal names below no other. */
  method CheckPackages(names: set<string>) returns (packages: set<string>)
    ensures packages == Reduced(names)
  {
    packages := names;
    var todo := names;
    ghost var done: set<string> := {};
    while todo != {}
      invariant todo <= names && done == names - todo
      invariant Reducing(names, done, packages)
      decreases todo
    {
      var original :| original in todo;
      todo := todo - {original};
      if Skipped(original) {
        assert Normals(done + {original}) == Normals(done);
      } else {
        ghost var before := packages;
        packages := Insert(packages, Normal(original));
        InsertKeepsReducing(names, done, before, original);
      }
      done := done + {original};
    }
    ReducedAtTheEnd(names, packages);
  }

  /** The inner scan: an iterator over the set that removes as it goes. */
  method Insert(packages: set<string>, name: string) returns (packages': set<string>)
    ensures packages' == Inserted(packages, name)
  {
    packages' := packages;
    var needAdd := true;
    var rest := packages;
    while rest != {}
      invariant rest <= packages
      invariant needAdd <==> !BelowSome(name, packages - rest)
      invariant packages' == set x | x in packages && (x in rest || !Below(x, name))
      decreases rest
    {
      var pack :| pack in rest;
      rest := rest - {pack};
      if Below(name, pack) {
        needAdd := false;
        if Below(pack, name) {
          BelowIsTransitive(name, pack, name);
        }
      } else if Below(pack, name) {
        packages' := packages' - {pack};
      }
    }
    if needAdd {
      packages' := packages' + {name};
    }
  }

  // ----- names as lists of components

  /** A name's components, between its dots. */
  function Components(name: string): (parts: seq<string>)
    ensures |parts| > 0
  {
    if |name| == 0 then [""]
    else if name[0] == '.' then [""] + Components(name[1..])
    else
      var rest := Components(name[1..]);
      [[name[0]] + rest[0]] + rest[1..]
  }

  function Dotted(parts: seq<string>): string {
    if |parts| == 0 then "" else if |parts| == 1 then parts[0] else parts[0] + "." + Dotted(parts[1..])
  }

  lemma {:induction false} DottedComponents(name: string)
    ensures Dotted(Components(name)) == name
  {
    if |name| > 0 {
      DottedComponents(name[1..]);
      var rest := Components(name[1..]);
      if name[0] != '.' {
        assert Components(name)[1..] == rest[1..];
      } else {
        assert Components(name)[1..] == rest;
      }
    }
  }

  lemma {:induction false} ComponentsAfterDot(a: string, b: string)
    ensures Components(a + "." + b) == Components(a) + Components(b)
  {
    var name := a + "." + b;
    if |a| == 0 {
      assert name[1..] == b;
    } else {
      assert name[1..] == a[1..] + "." + b;
      ComponentsAfterDot(a[1..], b);
    }
  }

  lemma {:induction false} DottedAfterDot(a: seq<string>, b: seq<string>)
    requires |a| > 0 && |b| > 0
    ensures Dotted(a + b) == Dotted(a) + "." + Dotted(b)
  {
    assert (a + b)[1..] == a[1..] + b;
    if |a| > 1 {
      DottedAfterDot(a[1..], b);
    }
  }

  /** A name lies below a package exactly when the package's components are a proper prefix of its own:
      com.foo.bar below com.foo, but not com.foobar. */
  lemma BelowExactlyWhen(name: string, pack: string)
    ensures Below(name, pack) <==> Components(pack) < Components(name)
  {
    if Below(name, pack) {
      var rest := name[|pack| + 1..];
      assert name == pack + "." + rest;
      ComponentsAfterDot(pack, rest);
    }
    if Components(pack) < Components(name) {
      var front, rest := Components(pack), Components(name)[|Components(pack)|..];
      assert Components(name) == front + rest;
      DottedAfterDot(front, rest);
      DottedComponents(name);
      DottedComponents(pack);
      assert name == pack + "." + Dotted(rest);
    }
  }

  /** A trailing dot makes no difference: the package remains under its name without it. */
  lemma TrailingDotIsDropped(name: string)
    requires !Skipped(name) && name[|name| - 1] != '.' && !Skipped(name + ".")
    ensures Reduced({name + "."}) == {name} == Reduced({name, name + "."})
  {
    assert Normal(name + ".") == name && Normal(name) == name;
    assert Normals({name + "."}) == {name} == Normals({name, name + "."});
    assert !Below(name, name);
  }

  /** In the result nothing lies below a normal name, and every proper input is, up to its trailing
      dot, in the result or below a name there. */
  lemma ReducedIsCoveringAntichain(names: set<string>, x: string, y: string, n: string)
    requires x in Reduced(names) && y in Reduced(names) && (Below(x, y) ==> y in Normals(names))
    requires n in names && !Skipped(n)
    ensures !Below(x, y)
    ensures CoveredBy(Normal(n), Reduced(names))
  {
    if Below(x, y) && x in Passed(names) {
      var original :| original in names && !Skipped(original) && Normal(original) == y;
      SkippedStay(x, original);
    }
    TopCovers(names, Normal(n));
  }

  /** Going up from a name ends at one below no other, or at a word passed over. */
  lemma {:induction false} TopCovers(names: set<string>, n: string)
    requires n in Normals(names)
    ensures CoveredBy(n, Reduced(names))
    decreases |n|
  {
    if other :| other in Normals(names) && Below(n, other) {
      TopCovers(names, other);
      CoverPassesOn(n, other, Reduced(names));
    } else if r :| r in Passed(names) && Below(n, r) {
      assert r in Reduced(names);
    }
  }

  lemma NoNormalBelowDot(original: string, r: string)
    requires !Skipped(original) && "." <= r
    ensures !Below(Normal(original), r)
  {
    NormalStartsWithoutDot(original);
    assert (r + ".")[0] == r[0] == '.';
  }

  /** Among names none of which is one of the words, exactly the topmost normal names remain, besides
      those with a leading dot. */
  lemma WithoutWordsOnlyTopsRemain(names: set<string>, m: string)
    requires forall n :: n in names && Skipped(n) ==> "." <= n
    requires !Skipped(m)
    ensures m in Reduced(names) <==> m in Normals(names) && !BelowSome(m, Normals(names))
  {
    forall r, original | r in Passed(names) && original in names && !Skipped(original) ensures !Below(Normal(original), r) {
      NoNormalBelowDot(original, r);
    }
  }
}
