/** The consumer's message log, by which a redelivered record is recognised, and the ids of log rows. */
module ConsumerLogs {
  import opened Counting

  // ----- ids

  datatype Key = Key(digest: string, topic: string, group: string)

  /** generateConsumerLogId. */
  function LogId(k: Key): string {
    k.digest + "-" + k.topic + "-" + k.group
  }

  function Digit(d: nat): char
    requires d < 10
  {
    "0123456789"[d]
  }

  function Decimal(n: nat): (s: string)
    ensures |s| > 0 && '-' !in s && (|s| == 1 <==> n < 10)
  {
    if n < 10 then [Digit(n)] else Decimal(n / 10) + [Digit(n % 10)]
  }

  /** generateConsumerOffsetLogId. */
  function OffsetId(topic: string, partition: nat, group: string): string {
    topic + "-" + Decimal(partition) + "-" + group
  }

  lemma SeparatorIsBehind(a: string, x: string, i: nat)
    requires '-' !in a && i < |a + "-" + x| && (a + "-" + x)[i] == '-'
    ensures |a| <= i
  {
    assert forall j :: 0 <= j < |a| ==> (a + "-" + x)[j] == a[j] && a[j] in a;
  }

  /** What comes before the first separator can be told from what comes after. */
  lemma SplitAtFirst(a: string, x: string, b: string, y: string)
    requires '-' !in a && '-' !in b
    ensures a + "-" + x == b + "-" + y <==> a == b && x == y
  {
    if a + "-" + x == b + "-" + y {
      SeparatorIsBehind(a, x, |b|);
      SeparatorIsBehind(b, y, |a|);
      JoinedAgree(a, x, b, y);
    }
  }

  lemma JoinedAgree(a: string, x: string, b: string, y: string)
    requires a + "-" + x == b + "-" + y && |a| <= |b|
    ensures |a| == |b| ==> a == b && x == y
    ensures |a| < |b| ==> b[..|a|] == a && b[|a|] == '-' && x == b[|a| + 1..] + "-" + y
  {
    var s := a + "-" + x;
    assert a == s[..|a|] && b == s[..|b|];
    assert x == s[|a| + 1..] && y == s[|b| + 1..];
    assert |a| < |b| ==> s[|a| + 1..] == b[|a| + 1..] + "-" + y;
  }

  /** The shorter left part begins the longer, and the rest of the longer has gone to the other side. */
  predicate Shifted(a: string, x: string, b: string, y: string) {
    |a| < |b| && b[..|a|] == a && b[|a|] == '-' && x == b[|a| + 1..] + "-" + y
  }

  lemma ShiftedAgree(a: string, x: string, b: string, y: string)
    requires Shifted(a, x, b, y)
    ensures a + "-" + x == b + "-" + y
  {
    assert b == a + "-" + b[|a| + 1..];
  }

  /** Two pairs of strings joined by a separator agree exactly when they are the same pair, or one
      left part is the other with a separator and the missing piece of the right part. */
  lemma JoinsCollideExactlyWhen(a: string, x: string, b: string, y: string)
    ensures a + "-" + x == b + "-" + y <==> (a == b && x == y) || Shifted(a, x, b, y) || Shifted(b, y, a, x)
  {
    if a + "-" + x == b + "-" + y {
      if |a| <= |b| {
        JoinedAgree(a, x, b, y);
      } else {
        JoinedAgree(b, y, a, x);
      }
    }
    if Shifted(a, x, b, y) {
      ShiftedAgree(a, x, b, y);
    }
    if Shifted(b, y, a, x) {
      ShiftedAgree(b, y, a, x);
    }
  }

  /** With digests free of separators, a log id tells digests apart, and tells topic and group apart
      as far as their own join does. */
  lemma LogIdsAgreeExactlyWhen(k: Key, l: Key)
    requires '-' !in k.digest && '-' !in l.digest
    ensures LogId(k) == LogId(l) <==> k.digest == l.digest && k.topic + "-" + k.group == l.topic + "-" + l.group
  {
    assert LogId(k) == k.digest + "-" + (k.topic + "-" + k.group);
    assert LogId(l) == l.digest + "-" + (l.topic + "-" + l.group);
    SplitAtFirst(k.digest, k.topic + "-" + k.group, l.digest, l.topic + "-" + l.group);
  }

  /** Within a group, and within a topic, log ids are as good as keys. */
  lemma LogIdInjective(k: Key, l: Key)
    requires '-' !in k.digest && '-' !in l.digest && (k.group == l.group || k.topic == l.topic)
    ensures LogId(k) == LogId(l) <==> k == l
  {
    LogIdsAgreeExactlyWhen(k, l);
    JoinsCollideExactlyWhen(k.topic, k.group, l.topic, l.group);
  }

  /** Across groups and topics they are not: one group's work can pass for another's. */
  lemma LogIdsCollide(digest: string)
    ensures LogId(Key(digest, "orders-eu", "billing")) == LogId(Key(digest, "orders", "eu-billing"))
  {
    assert LogId(Key(digest, "orders-eu", "billing")) == digest + "-" + ("orders-eu" + "-" + "billing");
    assert LogId(Key(digest, "orders", "eu-billing")) == digest + "-" + ("orders" + "-" + "eu-billing");
  }

  lemma {:induction false} DecimalInjective(m: nat, n: nat)
    requires Decimal(m) == Decimal(n)
    ensures m == n
  {
    var s := Decimal(m);
    assert s[|s| - 1] == Digit(m % 10) == Digit(n % 10);
    assert m % 10 == n % 10;
    if m >= 10 {
      assert Decimal(m / 10) == s[..|s| - 1] == Decimal(n / 10);
      DecimalInjective(m / 10, n / 10);
    }
  }

  /** Within a group an offset id tells any two partitions of any two topics apart. */
  lemma OffsetIdInjective(topic: string, partition: nat, topic': string, partition': nat, group: string)
    ensures OffsetId(topic, partition, group) == OffsetId(topic', partition', group)
      <==> topic == topic' && partition == partition'
  {
    var a, b := topic + "-" + Decimal(partition), topic' + "-" + Decimal(partition');
    if OffsetId(topic, partition, group) == OffsetId(topic', partition', group) {
      JoinsCollideExactlyWhen(a, group, b, group);
      JoinsCollideExactlyWhen(topic, Decimal(partition), topic', Decimal(partition'));
      NotShifted(topic, Decimal(partition), topic', Decimal(partition'));
      NotShifted(topic', Decimal(partition'), topic, Decimal(partition));
      DecimalInjective(partition, partition');
    }
  }

  lemma NotShifted(a: string, x: string, b: string, y: string)
    requires '-' !in x
    ensures !Shifted(a, x, b, y)
  {
    if |a| < |b| {
      var longer := b[|a| + 1..] + "-" + y;
      assert longer[|b| - |a| - 1] == '-';
    }
  }

  // ----- recognising redeliveries

  type Id = string
  type ConsumerId = nat

  /** The log, its queued writes, what each consumer is working on, and the history: how often the
      handler was invoked for an id, and how often it was excused: the check went unanswered, or it
      came before the entry of an earlier delivery had landed, or all trace of one was dropped. */
  datatype World = World(
    log: set<Id>, queued: multiset<Id>, working: map<ConsumerId, Id>,
    handled: map<Id, nat>, excused: map<Id, nat>)

  datatype Step =
    | Deliver(c: ConsumerId, id: Id, valid: bool, answered: bool)
    | Finish(c: ConsumerId, accepted: bool)
    | Crash(c: ConsumerId)
    | Write(id: Id, landed: bool)

  /** An earlier delivery has left, or will leave unless dropped, an entry in the log. */
  predicate Traced(w: World, id: Id) {
    id in w.log || id in w.queued || id in w.working.Values
  }

  predicate Enabled(w: World, s: Step) {
    match s
    case Deliver(c, _, _, _) => c !in w.working
    case Finish(c, _) => c in w.working
    case Crash(c) => c in w.working
    case Write(id, _) => id in w.queued
  }

  /** A delivered record goes to the handler if it is valid and exists does not find it, and exists
      takes a failing query for a no; its entry is queued in any case when it is done with. */
  function DeliverEffect(w: World, c: ConsumerId, id: Id, valid: bool, answered: bool): World {
    var w' := w.(working := w.working[c := id]);
    if !valid || (answered && id in w.log) then w'
    else w'.(handled := Bump(w.handled, id), excused := if Traced(w, id) then Bump(w.excused, id) else w.excused)
  }

  /** What has lost the last trace of an id excuses one more handling. */
  function Excusing(w: World, w': World, id: Id): World {
    if Traced(w, id) && !Traced(w', id) then w'.(excused := Bump(w'.excused, id)) else w'
  }

  function Next(w: World, s: Step): World
    requires Enabled(w, s)
  {
    match s
    case Deliver(c, id, valid, answered) => DeliverEffect(w, c, id, valid, answered)
    case Finish(c, accepted) =>
      var id := w.working[c];
      var w' := w.(working := w.working - {c});
      Excusing(w, if accepted then w'.(queued := w'.queued + multiset{id}) else w', id)
    case Crash(c) => Excusing(w, w.(working := w.working - {c}), w.working[c])
    case Write(id, landed) =>
      var w' := w.(queued := w.queued - multiset{id});
      Excusing(w, if landed then w'.(log := w'.log + {id}) else w', id)
  }

  const EMPTY := World({}, multiset{}, map[], map[], map[])

  ghost predicate Feasible(w: World, run: seq<Step>)
    decreases |run|, 0
  {
    |run| > 0 ==> Feasible(w, run[..|run| - 1]) && Enabled(After(w, run[..|run| - 1]), run[|run| - 1])
  }

  ghost function After(w: World, run: seq<Step>): World
    requires Feasible(w, run)
    decreases |run|, 1
  {
    if |run| == 0 then w else Next(After(w, run[..|run| - 1]), run[|run| - 1])
  }

  predicate AtMostOnce(w: World, id: Id) {
    Count(w.handled, id) <= Count(w.excused, id) + if Traced(w, id) then 1 else 0
  }

  /** Who else works on an id keeps its trace. */
  lemma OthersKeepTrace(w: World, c: ConsumerId, id: Id)
    requires c in w.working && id != w.working[c]
    ensures id in (w.working - {c}).Values <==> id in w.working.Values
  {
    if id in w.working.Values {
      var d :| d in w.working && w.working[d] == id;
      assert d in w.working - {c} && (w.working - {c})[d] == id;
    }
  }

  lemma DeliverKeepsAtMostOnce(w: World, c: ConsumerId, id: Id, valid: bool, answered: bool, other: Id)
    requires c !in w.working && AtMostOnce(w, other)
    ensures AtMostOnce(DeliverEffect(w, c, id, valid, answered), other)
  {
    var w' := DeliverEffect(w, c, id, valid, answered);
    assert w'.working[c] == id;
    assert id in w'.working.Values;
    forall x | x in w.working.Values ensures x in w'.working.Values {
      var d :| d in w.working && w.working[d] == x;
      assert w'.working[d] == x;
    }
  }

  lemma StepKeepsAtMostOnce(w: World, s: Step, id: Id)
    requires Enabled(w, s) && AtMostOnce(w, id)
    ensures AtMostOnce(Next(w, s), id)
  {
    match s
    case Deliver(c, id', valid, answered) => DeliverKeepsAtMostOnce(w, c, id', valid, answered, id);
    case Finish(c, _) => if id != w.working[c] { OthersKeepTrace(w, c, id); }
    case Crash(c) => if id != w.working[c] { OthersKeepTrace(w, c, id); }
    case Write(_, _) =>
  }

  /** Over any run an id is handled at most once, and once more for every excuse. */
  lemma {:induction false} HandledAtMostOncePlusExcuses(run: seq<Step>, id: Id)
    requires Feasible(EMPTY, run)
    ensures AtMostOnce(After(EMPTY, run), id)
    decreases |run|
  {
    if |run| > 0 {
      HandledAtMostOncePlusExcuses(run[..|run| - 1], id);
      StepKeepsAtMostOnce(After(EMPTY, run[..|run| - 1]), run[|run| - 1], id);
    }
  }

  /** For this id: exists answers, an earlier delivery's entry has landed before the next delivery,
      and neither entries nor consumers are dropped. */
  predicate Orderly(w: World, s: Step, id: Id)
    requires Enabled(w, s)
  {
    match s
    case Deliver(_, id', _, answered) => id' == id ==> answered && id !in w.queued && id !in w.working.Values
    case Finish(c, accepted) => w.working[c] == id ==> accepted
    case Crash(c) => w.working[c] != id
    case Write(id', landed) => id' == id ==> landed
  }

  ghost predicate OrderlyRun(run: seq<Step>, id: Id)
    requires Feasible(EMPTY, run)
    decreases |run|
  {
    |run| > 0 ==> OrderlyRun(run[..|run| - 1], id) && Orderly(After(EMPTY, run[..|run| - 1]), run[|run| - 1], id)
  }

  lemma OrderlyStepNeedsNoExcuse(w: World, s: Step, id: Id)
    requires Enabled(w, s) && Orderly(w, s, id)
    ensures Count(Next(w, s).excused, id) == Count(w.excused, id)
  {
    match s
    case Deliver(_, _, _, _) =>
    case Finish(c, _) => if id != w.working[c] { OthersKeepTrace(w, c, id); }
    case Crash(c) => if id != w.working[c] { OthersKeepTrace(w, c, id); }
    case Write(_, _) =>
  }

  lemma {:induction false} OrderlyNeedsNoExcuse(run: seq<Step>, id: Id)
    requires Feasible(EMPTY, run) && OrderlyRun(run, id)
    ensures Count(After(EMPTY, run).excused, id) == 0
    decreases |run|
  {
    if |run| > 0 {
      OrderlyNeedsNoExcuse(run[..|run| - 1], id);
      OrderlyStepNeedsNoExcuse(After(EMPTY, run[..|run| - 1]), run[|run| - 1], id);
    }
  }

  /** If log writes land before the next check, every id is handled at most once over any run. */
  lemma HandledAtMostOnce(run: seq<Step>, id: Id)
    requires Feasible(EMPTY, run) && OrderlyRun(run, id)
    ensures Count(After(EMPTY, run).handled, id) <= 1
  {
    HandledAtMostOncePlusExcuses(run, id);
    OrderlyNeedsNoExcuse(run, id);
  }

  /** A delivery invokes the handler exactly if the record is valid and its entry is not found: once, and
      for no other id. */
  lemma HandledExactlyWhen(w: World, c: ConsumerId, id: Id, valid: bool, answered: bool, other: Id)
    requires Enabled(w, Deliver(c, id, valid, answered))
    ensures Count(Next(w, Deliver(c, id, valid, answered)).handled, other)
      == Count(w.handled, other) + if other == id && valid && !(answered && id in w.log) then 1 else 0
  {}

  lemma Extend(w: World, run: seq<Step>, s: Step)
    requires Feasible(w, run) && Enabled(After(w, run), s)
    ensures Feasible(w, run + [s]) && After(w, run + [s]) == Next(After(w, run), s)
  {
    assert (run + [s])[..|run + [s]| - 1] == run;
  }

  /** A new valid record that is delivered, done with and written is handled once and logged, whether or
      not its check was answered; so that, delivered again, it is recognised. */
  lemma DeliveredIsRecognised(w: World, c: ConsumerId, id: Id, answered: bool)
    requires c !in w.working && id !in w.log
    ensures var run := [Deliver(c, id, true, answered)] + [Finish(c, true)] + [Write(id, true)];
      && Feasible(w, run) && id in After(w, run).log && c !in After(w, run).working
      && Count(After(w, run).handled, id) == Count(w.handled, id) + 1
      && Next(After(w, run), Deliver(c, id, true, true)).handled == After(w, run).handled
  {
    HandledExactlyWhen(w, c, id, true, answered, id);
    Extend(w, [], Deliver(c, id, true, answered));
    assert [] + [Deliver(c, id, true, answered)] == [Deliver(c, id, true, answered)];
    Extend(w, [Deliver(c, id, true, answered)], Finish(c, true));
    Extend(w, [Deliver(c, id, true, answered)] + [Finish(c, true)], Write(id, true));
  }

  lemma LoggedStaysUnhandled(w: World, s: Step, id: Id)
    requires Enabled(w, s) && id in w.log
    requires s.Deliver? && s.id == id ==> s.answered
    ensures id in Next(w, s).log && Count(Next(w, s).handled, id) == Count(w.handled, id)
  {}

  /** Once an entry has landed, no delivery whose check is answered invokes the handler again. */
  lemma {:induction false} NoHandlingOnceLogged(w: World, run: seq<Step>, id: Id)
    requires Feasible(w, run) && id in w.log
    requires forall i :: 0 <= i < |run| && run[i].Deliver? && run[i].id == id ==> run[i].answered
    ensures id in After(w, run).log && Count(After(w, run).handled, id) == Count(w.handled, id)
    decreases |run|
  {
    if |run| > 0 {
      NoHandlingOnceLogged(w, run[..|run| - 1], id);
      LoggedStaysUnhandled(After(w, run[..|run| - 1]), run[|run| - 1], id);
    }
  }
}
