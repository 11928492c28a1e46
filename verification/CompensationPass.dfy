/** One pass of the compensation task over the process table: it pages through a collection from
    which it deletes, so rows slip forward past the window. */
module CompensationPass {
  import opened Options
  import opened CompensationRules
  import opened Numbers

  type Id = string
  datatype Record = Record(id: Id, row: Row)

  /** Which store operations succeed during the pass, and the clock. The query for a page is answered
      unless it throws or the thread is interrupted just before it. */
  datatype Surroundings = Surroundings(
    savesProcess: Id -> bool, savesDead: Id -> bool, savesFull: Id -> bool, deletes: Id -> bool,
    answers: nat -> bool, now: int)

  /** What a pass adds outside the process table: dead log, full log, messages sent again. */
  datatype Logs = Logs(dead: map<Id, Row>, full: map<Id, Row>, sent: seq<Id>)

  /** The row after doReSend: counted and marked, if it was to be resent at all. */
  function Resent(s: Surroundings, row: Row): Row {
    if ShouldReSend(row, s.now) then row.(status := COMPENSATE, retrytimes := row.retrytimes + 1) else row
  }

  predicate Buried(s: Surroundings, r: Record) {
    r.row.status == DEAD || (Pending(r.row.status) && CheckMessageDeaded(Resent(s, r.row), s.now))
  }

  /** What remains of a handled row in the process table; None if it was deleted. */
  function Fate(s: Surroundings, r: Record): (f: Option<Record>)
    ensures f.Some? ==> f.value.id == r.id
  {
    if Buried(s, r) && s.savesDead(r.id) && s.deletes(r.id) then None
    else if r.row.status == NORMAL && s.savesFull(r.id) && s.deletes(r.id) then None
    else if Pending(r.row.status) && s.savesProcess(r.id) then Some(r.(row := Resent(s, r.row)))
    else Some(r)
  }

  function Logged(s: Surroundings, r: Record, logs: Logs): Logs {
    Logs(
      if Buried(s, r) && s.savesDead(r.id) then logs.dead[r.id := Resent(s, r.row).(status := DEAD)] else logs.dead,
      if r.row.status == NORMAL && s.savesFull(r.id) then logs.full[r.id := r.row] else logs.full,
      if ShouldReSend(r.row, s.now) then logs.sent + [r.id] else logs.sent)
  }

  function Fates(s: Surroundings, rows: seq<Record>): (rest: seq<Record>)
    ensures |rest| <= |rows|
  {
    if |rows| == 0 then []
    else
      Fates(s, rows[..|rows| - 1]) + Remains(Fate(s, rows[|rows| - 1]))
  }

  function Remains(fate: Option<Record>): (rest: seq<Record>)
    ensures |rest| <= 1
  {
    if fate.Some? then [fate.value] else []
  }

  function LoggedAll(s: Surroundings, rows: seq<Record>, logs: Logs): Logs {
    if |rows| == 0 then logs
    else Logged(s, rows[|rows| - 1], LoggedAll(s, rows[..|rows| - 1], logs))
  }

  /** How often each id occurs. */
  function IdBag(rows: seq<Record>): multiset<Id> {
    if |rows| == 0 then multiset{} else IdBag(rows[..|rows| - 1]) + multiset{rows[|rows| - 1].id}
  }

  ghost predicate Distinct(rows: seq<Record>) {
    forall id :: IdBag(rows)[id] <= 1
  }

  /** The rows at a page's offset and behind it, once the page has been handled: what follows the page
      has slipped forward by as many rows as were deleted. */
  function Slid(s: Surroundings, ahead: seq<Record>, size: nat): (slid: seq<Record>)
    ensures |slid| <= |ahead|
  {
    var w := Least(size, |ahead|);
    Fates(s, ahead[..w]) + ahead[w..]
  }

  /** The rows at the next page's offset and behind it. */
  function Beyond(s: Surroundings, ahead: seq<Record>, size: nat): (rest: seq<Record>)
    ensures |rest| <= |ahead|
    ensures size > 0 && |ahead| > 0 ==> |rest| < |ahead|
  {
    var slid := Slid(s, ahead, size);
    slid[Least(size, |slid|)..]
  }

  /** The rows the next page's offset has left behind. */
  function LeftBehind(s: Surroundings, ahead: seq<Record>, size: nat): seq<Record> {
    var slid := Slid(s, ahead, size);
    slid[..Least(size, |slid|)]
  }

  /** The rows a pass handles from a page on, in order, given those at its offset and behind it. */
  function Handled(s: Surroundings, ahead: seq<Record>, page: nat, size: nat): seq<Record>
    requires size > 0
    decreases |ahead|
  {
    if |ahead| == 0 || !s.answers(page) then []
    else ahead[..Least(size, |ahead|)] + Handled(s, Beyond(s, ahead, size), page + 1, size)
  }

  /** What the pass leaves of them in the table. */
  function Left(s: Surroundings, ahead: seq<Record>, page: nat, size: nat): seq<Record>
    requires size > 0
    decreases |ahead|
  {
    if |ahead| == 0 || !s.answers(page) then ahead
    else LeftBehind(s, ahead, size) + Left(s, Beyond(s, ahead, size), page + 1, size)
  }

  // ----- facts about ids

  lemma {:induction false} IdBagJoins(a: seq<Record>, b: seq<Record>)
    ensures IdBag(a + b) == IdBag(a) + IdBag(b)
    decreases |b|
  {
    if |b| == 0 {
      assert a + b == a;
    } else {
      assert (a + b)[..|a + b| - 1] == a + b[..|b| - 1];
      IdBagJoins(a, b[..|b| - 1]);
    }
  }

  lemma IdBagOfThree(a: seq<Record>, b: seq<Record>, c: seq<Record>)
    ensures IdBag(a + b + c) == IdBag(a) + IdBag(b) + IdBag(c)
  {
    IdBagJoins(a, b);
    IdBagJoins(a + b, c);
  }

  lemma IdBagOfOne(r: Record)
    ensures IdBag([r]) == multiset{r.id}
  {
    assert [r][..0] == [];
  }

  lemma {:induction false} FatesKeepIds(s: Surroundings, rows: seq<Record>)
    ensures IdBag(Fates(s, rows)) <= IdBag(rows)
  {
    if |rows| > 0 {
      var front := rows[..|rows| - 1];
      var last := Fate(s, rows[|rows| - 1]);
      FatesKeepIds(s, front);
      IdBagJoins(Fates(s, front), Remains(last));
      if last.Some? {
        IdBagOfOne(last.value);
      }
    }
  }

  lemma IdBagAround(before: seq<Record>, r: Record, after: seq<Record>)
    ensures IdBag(before + [r] + after) == IdBag(before) + multiset{r.id} + IdBag(after)
  {
    IdBagOfThree(before, [r], after);
    IdBagOfOne(r);
  }

  lemma InBag(rows: seq<Record>, i: nat)
    requires i < |rows|
    ensures IdBag(rows) == IdBag(rows[..i]) + multiset{rows[i].id} + IdBag(rows[i + 1..])
  {
    var before, r, after := rows[..i], rows[i], rows[i + 1..];
    SplitAt(rows, i);
    IdBagAround(before, r, after);
  }

  lemma SplitAt(rows: seq<Record>, i: nat)
    requires i < |rows|
    ensures rows == rows[..i] + [rows[i]] + rows[i + 1..]
  {}

  lemma CountedTwice(rows: seq<Record>, i: nat, j: nat)
    requires i < j < |rows| && rows[i].id == rows[j].id
    ensures IdBag(rows)[rows[i].id] >= 2
  {
    InBag(rows, j);
    InBag(rows[..j], i);
  }

  lemma SameIdSamePlace(rows: seq<Record>, i: nat, j: nat)
    requires Distinct(rows) && i <= j < |rows| && rows[i].id == rows[j].id
    ensures i == j
  {
    if i < j {
      CountedTwice(rows, i, j);
    }
  }

  lemma FewerStayDistinct(fewer: seq<Record>, rows: seq<Record>)
    requires Distinct(rows) && IdBag(fewer) <= IdBag(rows)
    ensures Distinct(fewer)
  {
    forall id ensures IdBag(fewer)[id] <= 1 {
      assert IdBag(rows)[id] <= 1;
    }
  }

  lemma SwappedStayDistinct(before: seq<Record>, r: Record, here: Record, after: seq<Record>)
    requires Distinct(before + [r] + after) && here.id == r.id
    ensures Distinct(before + [here] + after)
  {
    IdBagOfThree(before, [here], after);
    IdBagOfThree(before, [r], after);
    IdBagOfOne(here);
    IdBagOfOne(r);
  }

  // ----- the pass

  /** Nothing at the next offset has been touched yet. */
  lemma BeyondIsUntouched(s: Surroundings, ahead: seq<Record>, size: nat)
    ensures var rest := Beyond(s, ahead, size);
      && |rest| <= |ahead| - Least(size, |ahead|)
      && rest == ahead[|ahead| - |rest|..]
  {}

  /** The rows skipped over because those before them were deleted. */
  function SkippedOver(s: Surroundings, ahead: seq<Record>, size: nat): (skipped: seq<Record>)
    ensures ahead == ahead[..Least(size, |ahead|)] + skipped + Beyond(s, ahead, size)
  {
    BeyondIsUntouched(s, ahead, size);
    ahead[Least(size, |ahead|)..|ahead| - |Beyond(s, ahead, size)|]
  }

  /** The rows handled are rows of the table, none of them twice. */
  lemma {:induction false} HandledAreRows(s: Surroundings, ahead: seq<Record>, page: nat, size: nat)
    requires size > 0
    ensures multiset(Handled(s, ahead, page, size)) <= multiset(ahead)
    decreases |ahead|
  {
    if |ahead| > 0 && s.answers(page) {
      var window, skipped, rest := ahead[..Least(size, |ahead|)], SkippedOver(s, ahead, size), Beyond(s, ahead, size);
      assert multiset(ahead) == multiset(window) + multiset(skipped) + multiset(rest);
      HandledAreRows(s, rest, page + 1, size);
    }
  }

  lemma {:induction false} HandledIdsAreIds(s: Surroundings, ahead: seq<Record>, page: nat, size: nat)
    requires size > 0
    ensures IdBag(Handled(s, ahead, page, size)) <= IdBag(ahead)
    decreases |ahead|
  {
    if |ahead| > 0 && s.answers(page) {
      var window, skipped, rest := ahead[..Least(size, |ahead|)], SkippedOver(s, ahead, size), Beyond(s, ahead, size);
      IdBagOfThree(window, skipped, rest);
      IdBagJoins(window, Handled(s, rest, page + 1, size));
      HandledIdsAreIds(s, rest, page + 1, size);
    }
  }

  /** The rows the pass misses are at most as many as those it deletes. */
  lemma {:induction false} MissedAtMostDeleted(s: Surroundings, ahead: seq<Record>, page: nat, size: nat)
    requires size > 0 && forall k :: s.answers(k)
    ensures var handled, left := |Handled(s, ahead, page, size)|, |Left(s, ahead, page, size)|;
      |ahead| - handled <= |ahead| - left <= handled <= |ahead|
    decreases |ahead|
  {
    if |ahead| > 0 {
      MissedAtMostDeleted(s, Beyond(s, ahead, size), page + 1, size);
      BeyondIsUntouched(s, ahead, size);
    }
  }

  /** One pass over N rows handles at least half of them, none twice, whatever stores fail. */
  lemma PassHandlesHalf(s: Surroundings, table: seq<Record>, size: nat)
    requires size > 0 && Distinct(table) && forall k :: s.answers(k)
    ensures var handled := Handled(s, table, 1, size);
      && Distinct(handled) && multiset(handled) <= multiset(table)
      && |handled| <= |table| <= 2 * |handled|
  {
    MissedAtMostDeleted(s, table, 1, size);
    HandledAreRows(s, table, 1, size);
    HandledIdsAreIds(s, table, 1, size);
    FewerStayDistinct(Handled(s, table, 1, size), table);
  }

  lemma {:induction false} NoneRemain(s: Surroundings, rows: seq<Record>)
    requires forall i :: 0 <= i < |rows| ==> Fate(s, rows[i]).None?
    ensures Fates(s, rows) == []
  {
    if |rows| > 0 {
      NoneRemain(s, rows[..|rows| - 1]);
    }
  }

  /** Half is all it can promise, for any page size: of two pages whose first goes altogether, the
      second is never seen. */
  lemma HalfIsTight(s: Surroundings, first: seq<Record>, second: seq<Record>)
    requires 0 < |first| && |second| <= |first| && forall k :: s.answers(k)
    requires forall i :: 0 <= i < |first| ==> Fate(s, first[i]).None?
    ensures Handled(s, first + second, 1, |first|) == first && Left(s, first + second, 1, |first|) == second
  {
    var ahead, size := first + second, |first|;
    NoneRemain(s, first);
    assert ahead[..size] == first && ahead[size..] == second;
    assert Slid(s, ahead, size) == second;
    assert Beyond(s, ahead, size) == [] && LeftBehind(s, ahead, size) == second;
  }

  // ----- nothing leaves the table unlogged

  predicate Kept(id: Id, table: seq<Record>, logs: Logs) {
    id in IdBag(table) || InLogs(id, logs)
  }

  predicate InLogs(id: Id, logs: Logs) {
    id in logs.dead || id in logs.full
  }

  /** A handled row remains or is logged, and logs only grow. */
  lemma OneRowKept(s: Surroundings, r: Record, logs: Logs, id: Id)
    requires id == r.id || InLogs(id, logs)
    ensures id in IdBag(Remains(Fate(s, r))) || InLogs(id, Logged(s, r, logs))
    ensures InLogs(id, logs) ==> InLogs(id, Logged(s, r, logs))
  {
    var fate := Fate(s, r);
    if fate.Some? {
      IdBagOfOne(fate.value);
    }
  }

  lemma {:induction false} LoggedAllKeeps(s: Surroundings, rows: seq<Record>, logs: Logs, id: Id)
    requires Kept(id, rows, logs)
    ensures Kept(id, Fates(s, rows), LoggedAll(s, rows, logs))
  {
    if |rows| > 0 {
      var front, last := rows[..|rows| - 1], rows[|rows| - 1];
      var before := LoggedAll(s, front, logs);
      IdBagJoins(Fates(s, front), Remains(Fate(s, last)));
      if Kept(id, front, logs) {
        LoggedAllKeeps(s, front, logs, id);
      }
      if id == last.id || InLogs(id, before) {
        OneRowKept(s, last, before, id);
      }
    }
  }

  lemma LoggedAllComposes(s: Surroundings, a: seq<Record>, b: seq<Record>, logs: Logs)
    ensures LoggedAll(s, a + b, logs) == LoggedAll(s, b, LoggedAll(s, a, logs))
    decreases |b|
  {
    if |b| == 0 {
      assert a + b == a;
    } else {
      assert (a + b)[..|a + b| - 1] == a + b[..|b| - 1];
      LoggedAllComposes(s, a, b[..|b| - 1], logs);
    }
  }

  /** Every message of the table survives the pass: in the table, in the dead log or in the full log. */
  lemma {:induction false} PassLosesNothing(s: Surroundings, ahead: seq<Record>, page: nat, size: nat, logs: Logs, id: Id)
    requires size > 0 && Kept(id, ahead, logs)
    ensures Kept(id, Left(s, ahead, page, size), LoggedAll(s, Handled(s, ahead, page, size), logs))
    decreases |ahead|
  {
    if |ahead| > 0 && s.answers(page) {
      var w := Least(size, |ahead|);
      var logged := LoggedAll(s, ahead[..w], logs);
      var behind, beyond := LeftBehind(s, ahead, size), Beyond(s, ahead, size);
      assert Kept(id, Slid(s, ahead, size), logged) by {
        assert ahead == ahead[..w] + ahead[w..];
        IdBagJoins(ahead[..w], ahead[w..]);
        IdBagJoins(Fates(s, ahead[..w]), ahead[w..]);
        if Kept(id, ahead[..w], logs) {
          LoggedAllKeeps(s, ahead[..w], logs, id);
        }
      }
      assert Slid(s, ahead, size) == behind + beyond;
      IdBagJoins(behind, beyond);
      IdBagJoins(behind, Left(s, beyond, page + 1, size));
      LoggedAllOnlyAdds(s, Handled(s, beyond, page + 1, size), logged);
      if Kept(id, beyond, logged) {
        PassLosesNothing(s, beyond, page + 1, size, logged, id);
      }
      LoggedAllComposes(s, ahead[..w], Handled(s, beyond, page + 1, size), logs);
    }
  }

  lemma LoggedAllOnlyAdds(s: Surroundings, rows: seq<Record>, logs: Logs)
    ensures logs.dead.Keys <= LoggedAll(s, rows, logs).dead.Keys
    ensures logs.full.Keys <= LoggedAll(s, rows, logs).full.Keys
  {}

  /** The ids of the rows that are resent. */
  function Resends(s: Surroundings, rows: seq<Record>): multiset<Id> {
    if |rows| == 0 then multiset{}
    else
      var last := rows[|rows| - 1];
      Resends(s, rows[..|rows| - 1]) + if ShouldReSend(last.row, s.now) then multiset{last.id} else multiset{}
  }

  lemma {:induction false} SendsAreResends(s: Surroundings, rows: seq<Record>, logs: Logs)
    ensures multiset(LoggedAll(s, rows, logs).sent) == multiset(logs.sent) + Resends(s, rows)
    ensures Resends(s, rows) <= IdBag(rows)
  {
    if |rows| > 0 {
      SendsAreResends(s, rows[..|rows| - 1], logs);
    }
  }

  /** A pass sends no message twice. */
  lemma PassSendsAtMostOnce(s: Surroundings, table: seq<Record>, size: nat, logs: Logs, id: Id)
    requires size > 0 && Distinct(table)
    ensures var handled := Handled(s, table, 1, size);
      multiset(LoggedAll(s, handled, logs).sent)[id] <= multiset(logs.sent)[id] + 1
  {
    SendsAreResends(s, Handled(s, table, 1, size), logs);
    HandledIdsAreIds(s, table, 1, size);
    assert IdBag(table)[id] <= 1;
  }

  /** A resent row is at once judged dead exactly when this was its sixth resend: its message is then
      on its way and in the dead log. */
  lemma SixthResendIsBuried(s: Surroundings, r: Record)
    requires ShouldReSend(r.row, s.now) && (r.row.status == READY ==> r.row.retrytimes == 0)
    ensures Buried(s, r) <==> Resent(s, r.row).retrytimes == 6
  {}

  /** What becomes of one row when its store operations succeed. */
  lemma RowOutcome(s: Surroundings, r: Record, logs: Logs)
    requires s.savesProcess(r.id) && s.savesDead(r.id) && s.savesFull(r.id) && s.deletes(r.id)
    ensures var row, age := r.row, s.now - r.row.createtime;
      var again := row.(status := COMPENSATE, retrytimes := row.retrytimes + 1);
      var due := age <= 15 * 60 * 1000
        && ((row.status == FAIL && row.retrytimes <= 5) || (row.status == READY && age > 6 * 60 * 1000));
      if due && row.retrytimes <= 4 then
        Fate(s, r) == Some(r.(row := again)) && Logged(s, r, logs) == logs.(sent := logs.sent + [r.id])
      else if due then
        Fate(s, r) == None && Logged(s, r, logs)
          == logs.(sent := logs.sent + [r.id], dead := logs.dead[r.id := again.(status := DEAD)])
      else if row.status == NORMAL then
        Fate(s, r) == None && Logged(s, r, logs) == logs.(full := logs.full[r.id := row])
      else if row.status == DEAD || age > 15 * 60 * 1000 || (row.status != READY && row.retrytimes >= 6) then
        Fate(s, r) == None && Logged(s, r, logs) == logs.(dead := logs.dead[r.id := row.(status := DEAD)])
      else
        Fate(s, r) == Some(r) && Logged(s, r, logs) == logs
  {}

  // ----- repeated passes over overdue messages

  /** Every store operation succeeds. */
  ghost predicate StoresWork(s: Surroundings) {
    && (forall id :: s.savesDead(id) && s.deletes(id) && s.savesFull(id))
    && (forall k :: s.answers(k))
  }

  /** Rows that a pass removes: overdue, already dead, or confirmed. */
  predicate Doomed(r: Record, now: int) {
    r.row.status == NORMAL || r.row.status == DEAD || Overdue(r.row, now)
  }

  ghost predicate AllDoomed(rows: seq<Record>, now: int) {
    forall r :: r in multiset(rows) ==> Doomed(r, now)
  }

  lemma DoomedParts(a: seq<Record>, b: seq<Record>, now: int)
    requires AllDoomed(a + b, now)
    ensures AllDoomed(a, now) && AllDoomed(b, now)
  {
    assert multiset(a + b) == multiset(a) + multiset(b);
  }

  lemma {:induction false} DoomedAllGo(s: Surroundings, rows: seq<Record>)
    requires StoresWork(s) && AllDoomed(rows, s.now)
    ensures Fates(s, rows) == []
  {
    if |rows| > 0 {
      var front, last := rows[..|rows| - 1], rows[|rows| - 1];
      assert rows == front + [last];
      DoomedParts(front, [last], s.now);
      assert last in multiset([last]);
      DoomedAllGo(s, front);
    }
  }

  lemma SlidSplits(s: Surroundings, ahead: seq<Record>, size: nat)
    ensures Slid(s, ahead, size) == LeftBehind(s, ahead, size) + Beyond(s, ahead, size)
  {}

  lemma DoomedPageSlides(s: Surroundings, ahead: seq<Record>, size: nat)
    requires StoresWork(s) && AllDoomed(ahead, s.now)
    ensures Slid(s, ahead, size) == ahead[Least(size, |ahead|)..] && AllDoomed(Slid(s, ahead, size), s.now)
  {
    var window, after := ahead[..Least(size, |ahead|)], ahead[Least(size, |ahead|)..];
    assert ahead == window + after;
    DoomedParts(window, after, s.now);
    DoomedAllGo(s, window);
    assert [] + after == after;
  }

  /** A page of doomed rows goes altogether. */
  lemma DoomedPageGoes(s: Surroundings, ahead: seq<Record>, size: nat)
    requires StoresWork(s) && AllDoomed(ahead, s.now)
    ensures ahead == ahead[..Least(size, |ahead|)] + (LeftBehind(s, ahead, size) + Beyond(s, ahead, size))
    ensures AllDoomed(Beyond(s, ahead, size), s.now)
  {
    DoomedPageSlides(s, ahead, size);
    SlidSplits(s, ahead, size);
    PageAndRest(ahead, Least(size, |ahead|), LeftBehind(s, ahead, size), Beyond(s, ahead, size));
    DoomedParts(LeftBehind(s, ahead, size), Beyond(s, ahead, size), s.now);
  }

  lemma PageAndRest(ahead: seq<Record>, w: nat, a: seq<Record>, b: seq<Record>)
    requires w <= |ahead| && ahead[w..] == a + b
    ensures ahead == ahead[..w] + (a + b)
  {}

  lemma {:induction false} DoomedPassDeletesHandled(s: Surroundings, ahead: seq<Record>, page: nat, size: nat)
    requires size > 0 && StoresWork(s) && AllDoomed(ahead, s.now)
    ensures |ahead| - |Left(s, ahead, page, size)| == |Handled(s, ahead, page, size)|
    ensures multiset(Left(s, ahead, page, size)) <= multiset(ahead)
    decreases |ahead|
  {
    if |ahead| > 0 {
      var window, behind, beyond := ahead[..Least(size, |ahead|)], LeftBehind(s, ahead, size), Beyond(s, ahead, size);
      DoomedPageGoes(s, ahead, size);
      assert multiset(ahead) == multiset(window) + multiset(behind + beyond);
      assert multiset(behind + beyond) == multiset(behind) + multiset(beyond);
      DoomedPassDeletesHandled(s, beyond, page + 1, size);
    }
  }

  function Pow2(k: nat): nat {
    if k == 0 then 1 else 2 * Pow2(k - 1)
  }

  /** The table after one pass in each of the given surroundings, in turn. */
  function Passes(runs: seq<Surroundings>, table: seq<Record>, size: nat): seq<Record>
    requires size > 0
  {
    if |runs| == 0 then table else Left(runs[|runs| - 1], Passes(runs[..|runs| - 1], table, size), 1, size)
  }

  /** Each pass at least halves a table of doomed rows, so k passes clear fewer than 2^k rows. */
  lemma {:induction false} DrainedInLogPasses(runs: seq<Surroundings>, table: seq<Record>, size: nat)
    requires size > 0
    requires forall s :: s in runs ==> StoresWork(s) && AllDoomed(table, s.now)
    ensures |Passes(runs, table, size)| * Pow2(|runs|) <= |table|
    ensures multiset(Passes(runs, table, size)) <= multiset(table)
    ensures |table| < Pow2(|runs|) ==> Passes(runs, table, size) == []
  {
    if |runs| > 0 {
      var earlier, s := runs[..|runs| - 1], runs[|runs| - 1];
      DrainedInLogPasses(earlier, table, size);
      var left := Passes(earlier, table, size);
      var rest := Passes(runs, table, size);
      assert s in runs;
      MissedAtMostDeleted(s, left, 1, size);
      DoomedPassDeletesHandled(s, left, 1, size);
      HalvedTimesTwice(|rest|, |left|, Pow2(|runs| - 1));
    }
    ProductBelowFactor(|Passes(runs, table, size)|, Pow2(|runs|), |table|);
  }

  lemma HalvedTimesTwice(rest: nat, left: nat, p: nat)
    requires 2 * rest <= left
    ensures rest * (2 * p) <= left * p
  {
    assert rest * (2 * p) == (2 * rest) * p;
  }

  lemma ProductBelowFactor(n: nat, p: nat, bound: nat)
    requires n * p <= bound
    ensures bound < p ==> n == 0
  {
    if n > 0 {
      assert n * p >= p;
    }
  }

  // ----- the compensation loops

  const PAGE_SIZE := 1000

  class MessageTask {
    /** The process collection in the order of its query. */
    var process: seq<Record>
    var logs: Logs
    const surroundings: Surroundings

    constructor (surroundings: Surroundings, process: seq<Record>)
      ensures this.surroundings == surroundings && this.process == process && logs == Logs(map[], map[], [])
    {
      this.surroundings, this.process := surroundings, process;
      logs := Logs(map[], map[], []);
    }

    /** findByPage: the page's window of the collection as it is now; None when the query throws. */
    method FindByPage(pageNum: nat, size: nat, ghost front: seq<Record>, ghost ahead: seq<Record>)
      returns (rows: Option<seq<Record>>)
      requires pageNum >= 1 && process == front + ahead
      requires |front| == (pageNum - 1) * size || (ahead == [] && |front| <= (pageNum - 1) * size)
      ensures rows == if surroundings.answers(pageNum) then Some(ahead[..Least(size, |ahead|)]) else None
    {
      if !surroundings.answers(pageNum) {
        return None;
      }
      var skip := (pageNum - 1) * size;
      if skip < |process| {
        rows := Some(process[skip..skip + Least(size, |process| - skip)]);
        assert rows.value == ahead[..Least(size, |ahead|)];
      } else {
        rows := Some([]);
      }
    }

    /** The position of the row with an id, as a store keyed by id finds it. */
    method IndexOf(id: Id, ghost at: nat) returns (i: nat)
      requires Distinct(process) && at < |process| && process[at].id == id
      ensures i == at
    {
      i := 0;
      while process[i].id != id
        invariant i <= at
        decreases at - i
      {
        i := i + 1;
      }
      SameIdSamePlace(process, i, at);
    }

    method DeleteById(id: Id, ghost before: seq<Record>, ghost r: Record, ghost after: seq<Record>)
      requires process == before + [r] + after && r.id == id && Distinct(process)
      modifies this`process
      ensures process == if surroundings.deletes(id) then before + after else old(process)
    {
      if surroundings.deletes(id) {
        var i := IndexOf(id, |before|);
        process := process[..i] + process[i + 1..];
      }
    }

    /** doReSend: the row is counted, marked, stored back in its place, and its message sent. */
    method DoReSend(r: Record, ghost before: seq<Record>, ghost after: seq<Record>) returns (resent: Record)
      requires process == before + [r] + after && Distinct(process) && ShouldReSend(r.row, surroundings.now)
      modifies this
      ensures resent == r.(row := Resent(surroundings, r.row))
      ensures process == before + [if surroundings.savesProcess(r.id) then resent else r] + after
      ensures logs == old(logs).(sent := old(logs).sent + [r.id])
    {
      resent := r.(row := r.row.(retrytimes := r.row.retrytimes + 1));
      var i := IndexOf(r.id, |before|);
      if process[i].row.status != NORMAL {
        resent := resent.(row := resent.row.(status := COMPENSATE));
        if surroundings.savesProcess(r.id) {
          process := process[i := resent];
        }
        logs := logs.(sent := logs.sent + [r.id]);
      }
    }

    method SaveDeadedMessage(r: Record, ghost before: seq<Record>, ghost here: Record, ghost after: seq<Record>)
      requires process == before + [here] + after && here.id == r.id && Distinct(process)
      modifies this
      ensures logs == if surroundings.savesDead(r.id)
                      then old(logs).(dead := old(logs).dead[r.id := r.row.(status := DEAD)]) else old(logs)
      ensures process == if surroundings.savesDead(r.id) && surroundings.deletes(r.id) then before + after
                         else old(process)
    {
      var row := r.row.(status := DEAD);
      if surroundings.savesDead(r.id) {
        logs := logs.(dead := logs.dead[r.id := row]);
        DeleteById(r.id, before, here, after);
      }
    }

    method ProcessNormalMessage(r: Record, ghost before: seq<Record>, ghost after: seq<Record>)
      requires process == before + [r] + after && Distinct(process)
      modifies this
      ensures logs == if surroundings.savesFull(r.id)
                      then old(logs).(full := old(logs).full[r.id := r.row]) else old(logs)
      ensures process == if surroundings.savesFull(r.id) && surroundings.deletes(r.id) then before + after
                         else old(process)
    {
      if surroundings.savesFull(r.id) {
        logs := logs.(full := logs.full[r.id := r.row]);
        DeleteById(r.id, before, r, after);
      }
    }

    /** The body of the loop in handeMsgLog. */
    method HandleRow(r: Record, ghost before: seq<Record>, ghost after: seq<Record>)
      requires process == before + [r] + after && Distinct(process)
      modifies this
      ensures process == before + Remains(Fate(surroundings, r)) + after
      ensures logs == Logged(surroundings, r, old(logs))
    {
      var status := r.row.status;
      if status == FAIL || status == COMPENSATE || status == READY {
        var it, here := r, r;
        if ShouldReSend(it.row, surroundings.now) {
          it := DoReSend(it, before, after);
          here := if surroundings.savesProcess(r.id) then it else r;
          SwappedStayDistinct(before, r, here, after);
        }
        if CheckMessageDeaded(it.row, surroundings.now) {
          SaveDeadedMessage(it, before, here, after);
        }
      } else if status == DEAD {
        SaveDeadedMessage(r, before, r, after);
      } else if status == NORMAL {
        ProcessNormalMessage(r, before, after);
      }
    }

    /** handeMsgLog: each row of the window meets its fate. */
    method HandleMsgLog(rows: seq<Record>, ghost before: seq<Record>, ghost after: seq<Record>)
      requires process == before + rows + after && Distinct(process)
      modifies this
      ensures process == before + Fates(surroundings, rows) + after
      ensures logs == LoggedAll(surroundings, rows, old(logs))
    {
      assert rows[..0] == [];
      for i := 0 to |rows|
        invariant process == before + Fates(surroundings, rows[..i]) + rows[i..] + after
        invariant logs == LoggedAll(surroundings, rows[..i], old(logs))
      {
        NextRow(surroundings, before, rows, i, after);
        StillDistinct(surroundings, before, rows, i, after);
        LoggedNext(surroundings, rows, i, old(logs));
        HandleRow(rows[i], before + Fates(surroundings, rows[..i]), rows[i + 1..] + after);
      }
      assert rows[..|rows|] == rows;
    }

    /** onWork under the lock: pages 1, 2, ... of the table as it then is, until one is empty or missing. */
    method OnWork(acquired: bool, size: nat := PAGE_SIZE)
      requires Distinct(process) && size > 0
      modifies this
      ensures acquired ==> process == Left(surroundings, old(process), 1, size)
      ensures acquired ==> logs == LoggedAll(surroundings, Handled(surroundings, old(process), 1, size), old(logs))
      ensures !acquired ==> process == old(process) && logs == old(logs)
    {
      if !acquired {
        return;
      }
      var pageNum := 1;
      ghost var front: seq<Record>, ahead, handled: seq<Record> := [], process, [];
      ghost var left, all := Left(surroundings, process, 1, size), Handled(surroundings, process, 1, size);
      var rows := FindByPage(pageNum, size, front, ahead);
      while rows.Some? && rows.value != []
        invariant pageNum >= 1
        invariant rows == if surroundings.answers(pageNum) then Some(ahead[..Least(size, |ahead|)]) else None
        invariant process == front + ahead && Distinct(process)
        invariant |front| == (pageNum - 1) * size || (ahead == [] && |front| <= (pageNum - 1) * size)
        invariant left == front + Left(surroundings, ahead, pageNum, size)
        invariant all == handled + Handled(surroundings, ahead, pageNum, size)
        invariant logs == LoggedAll(surroundings, handled, old(logs))
        decreases |ahead|
      {
        PageTurns(surroundings, front, handled, ahead, pageNum, size);
        LoggedAllComposes(surroundings, handled, rows.value, old(logs));
        HandlePage(rows.value, size, front, ahead);
        NextOffset(surroundings, front, ahead, pageNum, size);
        front, handled := front + LeftBehind(surroundings, ahead, size), handled + rows.value;
        ahead := Beyond(surroundings, ahead, size);
        pageNum := pageNum + 1;
        rows := FindByPage(pageNum, size, front, ahead);
      }
      assert rows.Some? ==> |rows.value| == Least(size, |ahead|);
      assert Left(surroundings, ahead, pageNum, size) == ahead;
      assert handled + [] == handled;
    }

    method HandlePage(rows: seq<Record>, size: nat, ghost front: seq<Record>, ghost ahead: seq<Record>)
      requires process == front + ahead && rows == ahead[..Least(size, |ahead|)] && Distinct(process)
      modifies this
      ensures process == front + LeftBehind(surroundings, ahead, size) + Beyond(surroundings, ahead, size)
      ensures Distinct(process)
      ensures logs == LoggedAll(surroundings, rows, old(logs))
    {
      ghost var after := ahead[Least(size, |ahead|)..];
      assert ahead == rows + after;
      assert process == front + rows + after;
      PageStaysDistinct(surroundings, front, rows, after);
      PageSplits(surroundings, front, ahead, size);
      HandleMsgLog(rows, front, after);
    }
  }

  /** The next page's offset is where the rows beyond begin, unless there are none. */
  lemma NextOffset(s: Surroundings, front: seq<Record>, ahead: seq<Record>, page: nat, size: nat)
    requires page >= 1 && |front| == (page - 1) * size
    ensures var behind := |front + LeftBehind(s, ahead, size)|;
      behind == page * size || (Beyond(s, ahead, size) == [] && behind <= page * size)
  {
    assert page * size == (page - 1) * size + size;
  }

  /** After a page the table holds what the next offset left behind and what lies beyond it. */
  lemma PageSplits(s: Surroundings, front: seq<Record>, ahead: seq<Record>, size: nat)
    ensures var w := Least(size, |ahead|);
      front + Fates(s, ahead[..w]) + ahead[w..] == front + LeftBehind(s, ahead, size) + Beyond(s, ahead, size)
  {
    var w := Least(size, |ahead|);
    var a, b, c, d := Fates(s, ahead[..w]), ahead[w..], LeftBehind(s, ahead, size), Beyond(s, ahead, size);
    assert a + b == c + d;
    assert front + a + b == front + (a + b);
    assert front + c + d == front + (c + d);
  }

  lemma PageStaysDistinct(s: Surroundings, front: seq<Record>, page: seq<Record>, after: seq<Record>)
    requires Distinct(front + page + after)
    ensures Distinct(front + Fates(s, page) + after)
  {
    IdBagOfThree(front, page, after);
    IdBagOfThree(front, Fates(s, page), after);
    FatesKeepIds(s, page);
    FewerStayDistinct(front + Fates(s, page) + after, front + page + after);
  }

  lemma PageTurns(s: Surroundings, front: seq<Record>, handled: seq<Record>, ahead: seq<Record>, page: nat, size: nat)
    requires size > 0 && |ahead| > 0 && s.answers(page)
    ensures var beyond := Beyond(s, ahead, size);
      && front + Left(s, ahead, page, size) == front + LeftBehind(s, ahead, size) + Left(s, beyond, page + 1, size)
      && handled + Handled(s, ahead, page, size)
         == handled + ahead[..Least(size, |ahead|)] + Handled(s, beyond, page + 1, size)
  {
    var beyond := Beyond(s, ahead, size);
    var a, b := LeftBehind(s, ahead, size), Left(s, beyond, page + 1, size);
    Reassociate(front, a, b);
    var c, d := ahead[..Least(size, |ahead|)], Handled(s, beyond, page + 1, size);
    Reassociate(handled, c, d);
  }

  lemma Reassociate(a: seq<Record>, b: seq<Record>, c: seq<Record>)
    ensures a + (b + c) == a + b + c
  {}

  /** Seen from row i: what is done, the row, and the rest; and the same after the row met its fate. */
  lemma NextRow(s: Surroundings, before: seq<Record>, rows: seq<Record>, i: nat, after: seq<Record>)
    requires i < |rows|
    ensures var done, rest := before + Fates(s, rows[..i]), rows[i + 1..] + after;
      && before + Fates(s, rows[..i]) + rows[i..] + after == done + [rows[i]] + rest
      && done + Remains(Fate(s, rows[i])) + rest == before + Fates(s, rows[..i + 1]) + rows[i + 1..] + after
  {
    assert rows[..i + 1][..i] == rows[..i];
  }

  lemma StillDistinct(s: Surroundings, before: seq<Record>, rows: seq<Record>, i: nat, after: seq<Record>)
    requires i <= |rows| && Distinct(before + rows + after)
    ensures Distinct(before + Fates(s, rows[..i]) + rows[i..] + after)
  {
    assert rows == rows[..i] + rows[i..];
    IdBagOfThree(before, rows, after);
    IdBagJoins(rows[..i], rows[i..]);
    IdBagOfThree(before, Fates(s, rows[..i]), rows[i..]);
    IdBagJoins(before + Fates(s, rows[..i]) + rows[i..], after);
    FatesKeepIds(s, rows[..i]);
    FewerStayDistinct(before + Fates(s, rows[..i]) + rows[i..] + after, before + rows + after);
  }

  lemma LoggedNext(s: Surroundings, rows: seq<Record>, i: nat, logs: Logs)
    requires i < |rows|
    ensures LoggedAll(s, rows[..i + 1], logs) == Logged(s, rows[i], LoggedAll(s, rows[..i], logs))
  {
    assert rows[..i + 1][..i] == rows[..i];
  }
}
