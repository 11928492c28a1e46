# Verified model of the reliable Kafka service

This project models, in Dafny, the parts of the service whose correctness is not visible from one function,
and proves what they guarantee and where they do not.

- **Weighted round robin** (`Divisibility`, `RoundRobinSchedule`, `RoundRobinFairness`, `WeightLoadBalancer`,
  `TargetFairness`): the balancer's five mutable fields and its `while(true)` scan; exact fairness over a cycle,
  of indices and of the objects given, periodicity, and exactly when a call ends although `reloadWeightParams`
  keeps a leftover `currentWeight`.
- **SQL to count** (`SqlAst`, `SqlParser`, `SqlSemantics`, `SqlCountMeaning`, `SqlCountLimits`, `PageHelper`,
  `Permutations`): the recursive ORDER BY removal and the replacement or wrapping of the select list, against a
  semantics of statements in which WHERE predicates, expressions and base tables are arbitrary functions.
- **Producer compensation** (`CompensationRules`, `ProducerProtocol`, `ProducerRetries`, `ProducerTurns`,
  `CompensationPass`, `SenderCallback`, `ClientInterceptor`): clients, broker callbacks and compensators on the
  process table, the full log and the dead log. The protocol is a state machine whose steps are single store
  operations, each of which may fail or land unreported; the paging pass, the callback and the interceptor are
  also given as the imperative code they are.
- **Consumer offsets** (`ConsumerOffsets`, `ConsumerResets`, `ConsumerTable`, `ConsumerTurns`,
  `ConsumerHandlers`, `ConsumerLogs`): any number of consumers, among them ousted ones that do not know it yet;
  asynchronous commits, queued table writes that land late, rebalances, retention, and the `latest` reset
  policy; the message log by which redeliveries are recognised.
- **Redis lock** (`LockScripts`, `RedisLock`, `GlobalLock`, `LockTiming`): threads of any number of processes,
  scripts that run late or go unanswered, expiry, semaphores, thread-local tokens, unlocks by threads that hold
  nothing, and the 32-bit counter of `tryLock`.
- **Helpers** (`Packages`, `Templates`, `Naming`, `Paging`, `Strings`, `Counting`, `Numbers`, `Options`):
  package reduction over a set changed while it is scanned, template formatting, name conversion, page windows.

Assumptions. Lock tokens are fresh (`GlobalLockValue.gen` only adds up clock, process id and a counter).
Message digests identify messages, and messages enter with status READY. A store saves by replacing or
inserting under an id, updates only a row that is there, and deletes telling whether there was one. Kafka
delivers the records of a partition in order, without leaving out any between two positions. JSON, hashing,
SQL parsing and printing, and the clients of Kafka, MongoDB and Redis are parameters or nondeterministic
outcomes of steps.

Where the code and its own documentation differ, the model follows the code:

- `StringUtils.format` says that an escaped placeholder keeps its backslash
  (`mq-define/src/main/java/com/mq/common/utils/StringUtils.java:240`); the code drops it
  (`Templates.EscapeKeepsArgument`).
- A seek on assignment is meant to resume where the group left off. With `auto.offset.reset` at `latest` that
  fails exactly when a consumer with no stored offset, or one overtaken by retention, is reset while a record
  of the partition waits for its first attempt: `ConsumerResets.LosesExactlyWhen`. Records that retention
  removes unattempted are not counted as lost (`RetentionIsNotCounted`).
- The table's offset for a partition is meant to be the latest; it can go back when queued writes swap
  (`ConsumerTable.OvertakingGoesBack`), and does so exactly when offsets land out of order.
- The full log and the dead log are not disjoint (`ProducerProtocol.DeadAndDelivered`).
- The guard of `isSimpleCount` is meant to catch aggregates; it overlooks those inside a larger expression,
  those that the parser does not represent as a function call (`group_concat`, `listagg ... within group`),
  and LIMIT altogether (`SqlCountLimits.GuardExact` and the counterexamples beside it).
- `GET_LOCK_WAIT_TIMEOUT` is commented as 200 ms and is 150; the period is a parameter here.
- `checkPackages` treats the words `null` and `undefined` like empty names, because `StringUtils.isEmpty`
  does; the exact result in `Packages.Reduced` accounts for it.

## Model

| member | source | states |
|---|---|---|
| RoundRobinFairness.ExactFairness | mq-framework/src/main/java/com/mq/balance/WeightLoadBalancer.java:37-103 | with two or more targets and nonnegative weights not all zero, any sum(w)/gcd consecutive calls on the cycle pick target i exactly w[i]/gcd times |
| RoundRobinFairness.FairFromAnywhere | mq-framework/src/main/java/com/mq/balance/WeightLoadBalancer.java:37-66 | from any state, whatever level earlier targets left behind, every window of sum(w)/gcd consecutive calls is exactly fair once the picks owed by that level are worked off |
| RoundRobinFairness.PicksFollowCycle | mq-framework/src/main/java/com/mq/balance/WeightLoadBalancer.java:44-58 | from any cursor on the cycle, the picks are the endless repetition of the rows of targets with weight at least max, max-gcd, ..., gcd, entered at that cursor |
| RoundRobinFairness.Periodic | mq-framework/src/main/java/com/mq/balance/WeightLoadBalancer.java:44-58 | pick j and pick j + sum(w)/gcd are the same target |
| RoundRobinFairness.LeadsOntoCycle | mq-framework/src/main/java/com/mq/balance/WeightLoadBalancer.java:44-66 | a leftover currentWeight is worked off in finitely many calls, after which the balancer is on the cycle |
| RoundRobinFairness.ResetIsOnCycle | mq-framework/src/main/java/com/mq/balance/WeightLoadBalancer.java:47-53 | once currentWeight has been reset to maxWeight the balancer is on the cycle |
| RoundRobinFairness.FreshIsOnCycle | mq-framework/src/main/java/com/mq/balance/WeightLoadBalancer.java:26-66 | a balancer that has only had targets added is on the cycle from the start |
| RoundRobinFairness.FreshPicksHeaviestFirst | mq-framework/src/main/java/com/mq/balance/WeightLoadBalancer.java:44-58 | and first picks the first of the heaviest targets |
| TargetFairness.TakeTargets | mq-framework/src/main/java/com/mq/balance/WeightLoadBalancer.java:37-59 | k calls of get give, one after the other, the objects of the entries that the schedule picks |
| TargetFairness.ObjectsAreFair | mq-framework/src/main/java/com/mq/balance/WeightLoadBalancer.java:37-103 | over sum(w)/gcd consecutive calls each object is given as often as the weights of its entries divided by the gcd, from the cycle or once a leftover level is worked off |
| TargetFairness.ShareOfOne | mq-framework/src/main/java/com/mq/balance/WeightLoadBalancer.java:37-103 | for an object in one entry alone that is w/gcd times |
| RoundRobinFairness.CycleLength | mq-framework/src/main/java/com/mq/balance/WeightLoadBalancer.java:73-103 | one cycle is sum(w)/gcd picks long |
| RoundRobinFairness.CycleCounts | mq-framework/src/main/java/com/mq/balance/WeightLoadBalancer.java:73-103 | one cycle holds target i exactly w[i]/gcd times |
| RoundRobinSchedule.EndsExactlyWhen | mq-framework/src/main/java/com/mq/balance/WeightLoadBalancer.java:44-58 | with two or more targets the scan of get ends if and only if some weight is nonzero or the leftover level is not positive |
| RoundRobinSchedule.ProbesAtMostN | mq-framework/src/main/java/com/mq/balance/WeightLoadBalancer.java:44-58 | while currentWeight is at most maxWeight a call probes at most n entries |
| RoundRobinSchedule.LevelStaysInRange | mq-framework/src/main/java/com/mq/balance/WeightLoadBalancer.java:47-49 | with nonnegative weights currentWeight stays between 0 and the largest weight or leftover, so the 32-bit subtraction cannot overflow |
| RoundRobinSchedule.ScanDelivers | mq-framework/src/main/java/com/mq/balance/WeightLoadBalancer.java:44-58 | a call of get delivers the first pick still owed by the current rows |
| Divisibility.GcdCharacterised | mq-framework/src/main/java/com/mq/balance/WeightLoadBalancer.java:112-116 | what divides the gcd is exactly what divides both numbers |
| Divisibility.GcdAllCharacterised | mq-framework/src/main/java/com/mq/balance/WeightLoadBalancer.java:73-83 | what divides the gcd of all weights is exactly what divides every weight |
| WeightLoadBalancer.WeightLoadBalancer.AddTarget | mq-framework/src/main/java/com/mq/balance/WeightLoadBalancer.java:26-29 | appends the entry, reloads maximum and gcd, puts the index at the end and leaves currentWeight as it was |
| WeightLoadBalancer.WeightLoadBalancer.RemoveTarget | mq-framework/src/main/java/com/mq/balance/WeightLoadBalancer.java:32-35 | removes every entry of the target, reloads maximum and gcd, and leaves currentWeight as it was |
| WeightLoadBalancer.WithoutKeepsOthers | mq-framework/src/main/java/com/mq/balance/AbstractLoadBalancer.java:25-33 | removal takes every entry of the target and none of another |
| WeightLoadBalancer.WeightLoadBalancer.ReloadWeightParams | mq-framework/src/main/java/com/mq/balance/WeightLoadBalancer.java:61-66 | maxWeight, gcdWeight, totalTarget and the index again match the targets; currentWeight is not touched |
| WeightLoadBalancer.WeightLoadBalancer.ComputeTargetGcd | mq-framework/src/main/java/com/mq/balance/WeightLoadBalancer.java:73-83 | the gcd of all weights, 0 with fewer than two targets |
| WeightLoadBalancer.WeightLoadBalancer.ComputeMaxWeight | mq-framework/src/main/java/com/mq/balance/WeightLoadBalancer.java:90-103 | the largest weight, 0 without targets |
| WeightLoadBalancer.WeightLoadBalancer.Get | mq-framework/src/main/java/com/mq/balance/WeightLoadBalancer.java:37-59 | ends and moves the two fields as the scan does; with two or more targets it returns the object of the entry at the index where it stops, whose weight reaches the level, and none only at a reset to a largest weight of zero; the only one for one, none for none |
| WeightLoadBalancer.WeightLoadBalancer.ScanTargets | mq-framework/src/main/java/com/mq/balance/WeightLoadBalancer.java:44-58 | the while(true) loop refines the scan, and returns the object it stops at |
| SqlCountMeaning.CountPreserved | mq-define/src/main/java/com/mq/common/pagehelper/parser/SqlParser.java:71-98 | on every database the count statement answers the number of rows of the original, for every statement in which a nested LIMIT whose rows are looked at keeps its sub-select untouched, and whose aggregation and LIMIT, if its columns are replaced, are visible to the guard |
| SqlCountMeaning.CountExact | mq-define/src/main/java/com/mq/common/pagehelper/parser/SqlParser.java:120-164 | for those statements the count is right if and only if the statement was wrapped, or replacing its columns counts rightly |
| SqlCountMeaning.ReplacementExact | mq-define/src/main/java/com/mq/common/pagehelper/parser/SqlParser.java:120-125 | replacing the select list counts rightly if and only if the LIMIT starts at the first row and cuts nothing off, and an aggregating statement reads exactly one tuple |
| SqlCountLimits.GuardExact | mq-define/src/main/java/com/mq/common/pagehelper/parser/SqlParser.java:142-164 | a select over base tables, joined in any way and under any WHERE, whose columns are replaced is counted rightly on every database if and only if it has no LIMIT, no HAVING and no aggregate that the guard overlooks: inside an expression, or in a form that is not a function call to the parser |
| SqlCountLimits.PageExact | mq-define/src/main/java/com/mq/common/pagehelper/parser/SqlParser.java:198-261 | a select from an ordered, limited page of a table, with or without a WHERE in the page, is counted rightly on every database if and only if it has no WHERE itself, or repeats that of the page over the same rows under the same name |
| SqlCountLimits.NestedLimitMiscounted | mq-define/src/main/java/com/mq/common/pagehelper/parser/SqlParser.java:199-201 | so, under whatever WHERE, a select from the last row of a table is miscounted on some database, and without one it never is |
| SqlCountLimits.LimitMiscounted | mq-define/src/main/java/com/mq/common/pagehelper/parser/SqlParser.java:123-124 | counterexample: a simple select with LIMIT 1 is counted as the whole table |
| SqlCountLimits.HiddenAggregateMiscounted | mq-define/src/main/java/com/mq/common/pagehelper/parser/SqlParser.java:157-161 | counterexample: sum(a) + 1 is not recognised as aggregating |
| SqlCountLimits.GroupConcatMiscounted | mq-define/src/main/java/com/mq/common/pagehelper/parser/SqlParser.java:157-161 | counterexample: group_concat(a), not a function call to the parser, is not recognised as aggregating either |
| SqlCountMeaning.StripBodyRows | mq-define/src/main/java/com/mq/common/pagehelper/parser/SqlParser.java:171-261 | removing ORDER BY in every sub-select, join, union and WITH item keeps the row multiset |
| SqlCountMeaning.StripBodyCount | mq-define/src/main/java/com/mq/common/pagehelper/parser/SqlParser.java:171-213 | and the number of rows, whatever LIMIT the outermost body has and, as far down as rows are merely counted, the bodies below it |
| SqlCountMeaning.WrappedCounts | mq-define/src/main/java/com/mq/common/pagehelper/parser/SqlParser.java:126-132 | select count(0) from (b) table_count has one row, the number of rows of b |
| SqlParser.PlaceholdersPreserved | mq-define/src/main/java/com/mq/common/pagehelper/parser/SqlParser.java:120-279 | for every statement the count statement has the same sequence of ? parameters as the original, with no condition on LIMIT |
| SqlParser.StripsExactlyRemovable | mq-define/src/main/java/com/mq/common/pagehelper/parser/SqlParser.java:171-261 | the traversal leaves no ORDER BY without a parameter at any depth, and changes a body if and only if there was one |
| SqlParser.ProcessSelectBody | mq-define/src/main/java/com/mq/common/pagehelper/parser/SqlParser.java:171-191 | the recursive traversal computes the ORDER BY removal of the theorems |
| SqlParser.ProcessPlainSelect | mq-define/src/main/java/com/mq/common/pagehelper/parser/SqlParser.java:198-213 | for a plain select, its from item and its joins |
| SqlParser.ProcessFromItem | mq-define/src/main/java/com/mq/common/pagehelper/parser/SqlParser.java:233-261 | for sub-joins, sub-selects and lateral sub-selects; values lists and tables stay |
| SqlParser.ProcessWithItemsList | mq-define/src/main/java/com/mq/common/pagehelper/parser/SqlParser.java:220-226 | for every WITH item, in place of the old one |
| SqlParser.OrderByHashParameters | mq-define/src/main/java/com/mq/common/pagehelper/parser/SqlParser.java:269-279 | whether a printed ORDER BY element shows a question mark |
| SqlParser.IsSimpleCount | mq-define/src/main/java/com/mq/common/pagehelper/parser/SqlParser.java:142-164 | no GROUP BY, no DISTINCT, no item that shows a question mark or is a function call |
| SqlParser.SqlToCount | mq-define/src/main/java/com/mq/common/pagehelper/parser/SqlParser.java:120-134 | replaces the statement in place: the select list if simple, otherwise the whole body wrapped |
| SqlParser.SqlParser.GetSmartCountSql | mq-define/src/main/java/com/mq/common/pagehelper/parser/SqlParser.java:71-98 | with or without a cached answer the result is the one computed afresh, a FOR UPDATE statement is refused, and the cache stays truthful |
| PageHelper.GetCountSql | mq-define/src/main/java/com/mq/common/pagehelper/PageHelper.java:192-215 | the text answered: refused if and only if FOR UPDATE ends it, an unparsable text wrapped as it stands, and for a SELECT the text of a statement with the same parameters that answers the number of its rows on every database, under the conditions of CountPreserved |
| PageHelper.FreshTextCounts | mq-define/src/main/java/com/mq/common/pagehelper/parser/SqlParser.java:71-98 | the same of the text computed afresh, so of cached ones too |
| SqlParser.EndsForUpdateExactlyWhen | mq-define/src/main/java/com/mq/common/pagehelper/parser/SqlParser.java:59-63 | refused are exactly the texts that end in FOR UPDATE in any case, up to blanks |
| ProducerProtocol.NoRecordedMessageLost | mq-service/src/main/java/com/mq/kafka/scheduler/KakaMQMessageTask.java:106-300 | over every interleaving of clients, callbacks, compensators and crashes at single store operations, a message once in the process table is later still there, in the dead log, or acknowledged by Kafka |
| ProducerProtocol.LoggedImpliesDelivered | mq-service/src/main/java/com/mq/kafka/callback/SenderCallback.java:50-95 | every NORMAL row and every full log entry belongs to a message that Kafka has acknowledged |
| ProducerProtocol.RunKeepsSound | mq-service/src/main/java/com/mq/kafka/scheduler/KakaMQMessageTask.java:106-300 | the invariant behind both: it holds over every run |
| ProducerProtocol.StepKeepsSound | mq-service/src/main/java/com/mq/kafka/scheduler/KakaMQMessageTask.java:202-300 | every single step keeps it |
| ProducerRetries.RetrytimesCountResends | mq-service/src/main/java/com/mq/kafka/scheduler/KakaMQMessageTask.java:202-234 | with one compensator at a time and each message recorded once, stored retrytimes + counts not stored = resends + counts stored for nothing |
| ProducerRetries.ResendsBounded | mq-service/src/main/java/com/mq/kafka/scheduler/KakaMQMessageTask.java:149-197 | no message is resent more than six times plus the resends whose count was not stored |
| ProducerRetries.SixResendsAtMost | mq-service/src/main/java/com/mq/kafka/scheduler/KakaMQMessageTask.java:149-234 | if the saves of the compensator succeed, at most six resends, and retrytimes equals them up to resends that did not go out |
| ProducerTurns.SixResends | mq-service/src/main/java/com/mq/kafka/scheduler/KakaMQMessageTask.java:106-234 | the bound is met: a run from empty tables, with one compensator and no count lost, resends a message exactly six times and buries it |
| ProducerTurns.DueIsResent | mq-service/src/main/java/com/mq/kafka/scheduler/KakaMQMessageTask.java:106-234 | in any world a working compensator sends a row that is due once more, counted and marked, and goes on to bury it if and only if that was the sixth time |
| ProducerTurns.LostIsBuried | mq-service/src/main/java/com/mq/kafka/scheduler/KakaMQMessageTask.java:106-131 | it moves a row that has had its resends or its time to the dead log, unsent |
| ProducerTurns.DeadIsBuried | mq-service/src/main/java/com/mq/kafka/scheduler/KakaMQMessageTask.java:106-131 | and one that died in an earlier pass |
| ProducerTurns.ConfirmedIsCompleted | mq-service/src/main/java/com/mq/kafka/scheduler/KakaMQMessageTask.java:106-131 | it moves a confirmed row to the full log |
| ProducerTurns.OthersWait | mq-service/src/main/java/com/mq/kafka/scheduler/KakaMQMessageTask.java:106-131 | and leaves a young READY row and a resent one alone |
| ProducerTurns.SuccessTurn | mq-service/src/main/java/com/mq/kafka/callback/SenderCallback.java:62-81 | a working success callback moves the row to the full log |
| ProducerTurns.UndeletedIsMarked | mq-service/src/main/java/com/mq/kafka/callback/SenderCallback.java:62-81 | one whose deletion fails marks it NORMAL and logs it all the same |
| ProducerTurns.FailureIsMarked | mq-service/src/main/java/com/mq/kafka/callback/SenderCallback.java:82-88 | a failure callback marks the row FAIL |
| ProducerTurns.FailedSendIsMarked | mq-service-api/src/main/java/com/mq/interceptor/KafkaMQClientIntercepter.java:104-109 | a client whose send failed marks its row FAIL unless it is confirmed, and no other |
| ProducerRetries.ResendDecidedInTime | mq-service/src/main/java/com/mq/kafka/scheduler/KakaMQMessageTask.java:149-197 | in every run no resend is decided later than createtime + 15 minutes |
| ProducerProtocol.SeenNormalIsNotResent | mq-service/src/main/java/com/mq/kafka/scheduler/KakaMQMessageTask.java:211-225 | a row found NORMAL or gone at the last look is not resent by that compensator over any run that follows, until it loads another page |
| ProducerProtocol.DeadJoinsFullExactlyWhenAcked | mq-service/src/main/java/com/mq/kafka/scheduler/KakaMQMessageTask.java:271-287 | in any reachable state a dead-lettered message can still come into the full log without a further acknowledgement if and only if Kafka has acknowledged it |
| ProducerProtocol.DeadAndDelivered | mq-service/src/main/java/com/mq/kafka/scheduler/KakaMQMessageTask.java:271-287 | so the logs are not disjoint: a run from empty tables leaves a message in both |
| CompensationRules.LifeOfARow | mq-service/src/main/java/com/mq/kafka/scheduler/KakaMQMessageTask.java:149-197 | a READY row is left alone for 6 minutes, resent until 15 and buried after; a FAIL row is resent with up to 5 retries within 15 minutes and else buried; a resent row is buried with 6 retries or after 15 minutes; nothing is both |
| CompensationRules.SettledRowsAreLeft | mq-service/src/main/java/com/mq/kafka/scheduler/KakaMQMessageTask.java:149-197 | confirmed and dead rows are neither resent nor judged |
| ClientInterceptor.KafkaMQClientIntercepter.DoAround | mq-service-api/src/main/java/com/mq/interceptor/KafkaMQClientIntercepter.java:61-126 | the interceptor as a whole leaves exactly the tables that its protocol steps lead to, whichever store calls land, fail or go unreported |
| ClientInterceptor.StepsOfClient | mq-service-api/src/main/java/com/mq/interceptor/KafkaMQClientIntercepter.java:79-119 | those protocol steps are enabled one after the other and lead there |
| ClientInterceptor.InterceptionOutcome | mq-service-api/src/main/java/com/mq/interceptor/KafkaMQClientIntercepter.java:79-119 | an interception leaves the row READY after a send that went through and FAIL after one that failed, if the save and the mark land or the second save does |
| CompensationPass.PassHandlesHalf | mq-service/src/main/java/com/mq/kafka/scheduler/KakaMQMessageTask.java:82-93 | one pass over N rows handles no row twice and at least half of them, whatever stores fail |
| CompensationPass.HalfIsTight | mq-mongo-integration/src/main/java/com/mq/mongo/dao/BaseMongoDao.java:24-40 | and no more than half in general: for every page size, of two pages the first of which goes altogether the second is never seen |
| CompensationPass.MissedAtMostDeleted | mq-service/src/main/java/com/mq/kafka/scheduler/KakaMQMessageTask.java:82-93 | the rows a pass misses are at most as many as those it deletes |
| CompensationPass.HandledAreRows | mq-service/src/main/java/com/mq/kafka/scheduler/KakaMQMessageTask.java:82-93 | the rows handled form a sub-multiset of the table |
| CompensationPass.PassLosesNothing | mq-service/src/main/java/com/mq/kafka/scheduler/KakaMQMessageTask.java:106-131 | each row of the table is afterwards in the table, the dead log or the full log |
| CompensationPass.PassSendsAtMostOnce | mq-service/src/main/java/com/mq/kafka/scheduler/KakaMQMessageTask.java:110-116 | a pass sends no message twice |
| CompensationPass.SixthResendIsBuried | mq-service/src/main/java/com/mq/kafka/scheduler/KakaMQMessageTask.java:115-120 | a resent row is at once judged dead if and only if this was its sixth resend |
| CompensationPass.RowOutcome | mq-service/src/main/java/com/mq/kafka/scheduler/KakaMQMessageTask.java:106-131 | what one row leaves in the table and the logs when the stores work: resent, resent and buried, completed, buried or left, by status, age and retries |
| CompensationPass.DrainedInLogPasses | mq-service/src/main/java/com/mq/kafka/scheduler/KakaMQMessageTask.java:82-93 | k passes with working stores over a table of overdue, dead or confirmed rows leave at most 1/2^k of it, so nothing once 2^k exceeds its size |
| CompensationPass.MessageTask.OnWork | mq-service/src/main/java/com/mq/kafka/scheduler/KakaMQMessageTask.java:67-100 | the paging loop leaves the table and the logs of the pass the theorems are about, and changes nothing without the lock |
| CompensationPass.MessageTask.HandleMsgLog | mq-service/src/main/java/com/mq/kafka/scheduler/KakaMQMessageTask.java:106-131 | each row of a page meets its fate, in order |
| CompensationPass.MessageTask.HandleRow | mq-service/src/main/java/com/mq/kafka/scheduler/KakaMQMessageTask.java:110-124 | by status: resend and bury, bury, or move to the full log |
| CompensationPass.MessageTask.DoReSend | mq-service/src/main/java/com/mq/kafka/scheduler/KakaMQMessageTask.java:202-234 | counts, marks, stores in place and sends the message once |
| CompensationPass.MessageTask.SaveDeadedMessage | mq-service/src/main/java/com/mq/kafka/scheduler/KakaMQMessageTask.java:271-287 | dead log first, deletion only if that succeeded |
| CompensationPass.MessageTask.ProcessNormalMessage | mq-service/src/main/java/com/mq/kafka/scheduler/KakaMQMessageTask.java:239-251 | full log first, deletion only if that succeeded |
| CompensationPass.MessageTask.DeleteById | mq-mongo-integration/src/main/java/com/mq/mongo/dao/MongoDaoSupport.java:67-72 | removes exactly the row with the id |
| CompensationPass.MessageTask.FindByPage | mq-mongo-integration/src/main/java/com/mq/mongo/dao/BaseMongoDao.java:24-40 | the window of the page over the collection as it then is |
| SenderCallback.RunningTwiceIsRunningOnce | mq-service/src/main/java/com/mq/kafka/producer/KafkaProducerManager.java:67-78 | a callback run twice, as a synchronous send does, leaves the same tables as once, update time aside, whichever store calls fail |
| SenderCallback.SuccessCompletes | mq-service/src/main/java/com/mq/kafka/callback/SenderCallback.java:62-81 | whatever earlier callbacks did or failed to do, one success callback with working stores ends with the message gone from the process table and in the full log, with the partition and offset acknowledged |
| SenderCallback.MarksWhatIsKnown | mq-service/src/main/java/com/mq/kafka/callback/SenderCallback.java:62-88 | a row that is marked gets partition and offset from a success and the partition alone from a failure, and keeps the rest |
| SenderCallback.LateFailureUndoes | mq-service/src/main/java/com/mq/kafka/callback/SenderCallback.java:82-88 | a failure callback turns a message acknowledged earlier to FAIL if and only if its deletion had failed and the update gets through |
| SenderCallback.LostOnlyByFailingSave | mq-service/src/main/java/com/mq/kafka/callback/SenderCallback.java:62-81 | a callback makes a message vanish from both tables if and only if its deletion succeeds and the save to the full log does not |
| SenderCallback.OthersUntouched | mq-service/src/main/java/com/mq/kafka/callback/SenderCallback.java:50-95 | no other message is touched |
| SenderCallback.Callback.Handle4MessageLog | mq-service/src/main/java/com/mq/kafka/callback/SenderCallback.java:50-95 | the branches on topic, error and deletion leave the tables the lemmas describe; no metadata leaves no trace |
| ConsumerOffsets.RunKeepsInv | mq-consumer/src/main/java/com/mq/consumer/kafka/KafkaConsumerManager.java:83-161 | over every run of any number of consumers, every offset in memory, in Kafka, in the table or on its way to either has only attempted or reset-over records before it |
| ConsumerOffsets.StepKeepsInv | mq-consumer/src/main/java/com/mq/consumer/kafka/KafkaConsumerManager.java:83-161 | each of the seventeen steps keeps that |
| ConsumerOffsets.SeekJumpsOverNothingNew | mq-consumer/src/main/java/com/mq/consumer/kafka/partition/HandleRebalance.java:45-71 | the position after an assignment has only attempted records, or records lost to an earlier reset, before it |
| ConsumerResets.ResetFollowsExactlyWhen | mq-consumer/src/main/java/com/mq/consumer/kafka/partition/HandleRebalance.java:45-71 | an assignment leads to a reset if and only if neither table nor Kafka has a readable offset, or the one taken lies before what retention has left |
| ConsumerResets.JoinerLosesExactlyWhen | mq-consumer/src/main/java/com/mq/consumer/kafka/KafkaConsumerBuilder.java:43 | the next consumer to join and be given the partition can be reset if and only if that is so, and then loses every record not yet attempted |
| ConsumerResets.ResetGoesToTheEnd | mq-consumer/src/main/java/com/mq/consumer/kafka/KafkaConsumerBuilder.java:43 | a reset goes behind every record there and before every one to come, in that partition alone |
| ConsumerResets.LosesExactlyWhen | mq-consumer/src/main/java/com/mq/consumer/kafka/KafkaConsumerBuilder.java:43 | a run loses a record if and only if somewhere in it a consumer without a stored offset, or overtaken by retention, is reset while a record of the partition waits for its first attempt |
| ConsumerResets.WithoutLosingResetNothingIsSkipped | mq-consumer/src/main/java/com/mq/consumer/kafka/partition/HandleRebalance.java:45-71 | in a run without such a reset no seek passes an unattempted record |
| ConsumerResets.RetentionIsNotCounted | mq-consumer/src/main/java/com/mq/consumer/kafka/KafkaConsumerBuilder.java:43 | a record that expires unattempted is not counted as lost |
| ConsumerOffsets.AttemptsInOrder | mq-consumer/src/main/java/com/mq/consumer/kafka/KafkaConsumerManager.java:93-143 | a record is attempted only when all records before it in its partition have been attempted or lost |
| ConsumerOffsets.AckDropsOnlyEqual | mq-consumer/src/main/java/com/mq/consumer/kafka/offset/GeneralOffsetCommitCallback.java:38-62 | the acknowledgement drops an entry if and only if it still equals what was committed, and changes no other |
| ConsumerTurns.BatchIsCommitted | mq-consumer/src/main/java/com/mq/consumer/kafka/KafkaConsumerManager.java:83-161 | from any world a polled batch that is processed and committed is attempted as a whole, one past the last offset of each partition is on its way to Kafka and queued for the table, and the consumer fetches on behind it |
| ConsumerTurns.CommitReachesBoth | mq-consumer/src/main/java/com/mq/consumer/kafka/KafkaConsumerManager.java:83-161 | and when commit and write get through, both stores hold it |
| ConsumerTurns.AcknowledgedIsForgotten | mq-consumer/src/main/java/com/mq/consumer/kafka/offset/GeneralOffsetCommitCallback.java:38-62 | then the consumer has nothing left to commit |
| ConsumerTurns.RevokedIsHandedOver | mq-consumer/src/main/java/com/mq/consumer/kafka/partition/HandleRebalance.java:75-99 | a revoked partition is committed, queued for the table and forgotten, or retained |
| ConsumerTurns.ReleasedIsNotFetched | mq-consumer/src/main/java/com/mq/consumer/kafka/partition/HandleRebalance.java:45-71 | a released partition is fetched no more |
| ConsumerTurns.ClosedIsHandedOver | mq-consumer/src/main/java/com/mq/consumer/kafka/KafkaConsumerManager.java:228-240 | a closing consumer queues its offsets for the table, and leaves them to Kafka if the last commit succeeds |
| ConsumerTable.NeverGoesBackExactlyWhen | mq-consumer/src/main/java/com/mq/consumer/kafka/KafkaConsumerManager.java:198-212 | over a run the offset of a partition in the table never decreases if and only if the offsets that land there, in landing order, do not |
| ConsumerTable.WritesMayGoBackExactlyWhen | mq-consumer/src/main/java/com/mq/consumer/kafka/KafkaConsumerManager.java:198-212 | in any world the queued writes can make the table of a partition go back if and only if one of them lies below the table or two of them differ |
| ConsumerTable.OneOwnerNeverGoesBack | mq-consumer/src/main/java/com/mq/consumer/kafka/KafkaConsumerManager.java:83-161 | so it never decreases while the partition is assigned once, to one consumer, and its queued writes land in the order queued, late or dropped as they may be |
| ConsumerTable.OvertakingGoesBack | mq-consumer/src/main/java/com/mq/consumer/kafka/KafkaConsumerManager.java:198-212 | counterexample: a run from nothing, with one owner, in which the second queued write overtakes the first and the table goes back |
| ConsumerHandlers.KafkaConsumerManager.ProcessBatch | mq-consumer/src/main/java/com/mq/consumer/kafka/KafkaConsumerManager.java:83-145 | attempts the records in order until the worker stops, notes each offset and commits when due |
| ConsumerHandlers.BatchOutcome | mq-consumer/src/main/java/com/mq/consumer/kafka/KafkaConsumerManager.java:93-135 | each record is attempted once, the map holds the latest offsets, and the last commit, with its table writes, covers exactly the records before those that wait |
| ConsumerHandlers.CommitSpacing | mq-consumer/src/main/java/com/mq/consumer/kafka/KafkaConsumerManager.java:129-135 | fewer than batchCommitSize records wait at any time, none at the end of a batch or after a record that finds the worker stopped, and a commit comes no earlier than that |
| ConsumerHandlers.NotedIsLatest | mq-consumer/src/main/java/com/mq/consumer/kafka/KafkaConsumerManager.java:127 | for each partition the map holds one past the last processed offset |
| ConsumerHandlers.KafkaConsumerManager.SaveOffset2Db | mq-consumer/src/main/java/com/mq/consumer/kafka/KafkaConsumerManager.java:219-221 | queues one table write per entry |
| ConsumerHandlers.KafkaConsumerManager.OnComplete | mq-consumer/src/main/java/com/mq/consumer/kafka/offset/GeneralOffsetCommitCallback.java:38-82 | queues table writes in both outcomes when saving, otherwise drops what was acknowledged |
| ConsumerHandlers.KafkaConsumerManager.SyncCommitOffset | mq-consumer/src/main/java/com/mq/consumer/kafka/KafkaConsumerManager.java:228-240 | the final commit; the entries go to the table even when Kafka refuses them |
| ConsumerHandlers.HandleRebalance.CommitOffset | mq-consumer/src/main/java/com/mq/consumer/kafka/partition/HandleRebalance.java:75-99 | commits, forgets and saves partition by partition, carrying along earlier failures; the table ends with exactly the offsets whose commit and save succeed, others as before |
| ConsumerHandlers.RevocationOutcome | mq-consumer/src/main/java/com/mq/consumer/kafka/partition/HandleRebalance.java:75-99 | exactly the offsets whose commit succeeds are forgotten and written, and Kafka afterwards holds for any partition what it held or what the consumer had |
| ConsumerHandlers.SavedOutcome | mq-consumer/src/main/java/com/mq/consumer/kafka/partition/HandleRebalance.java:86-92 | the same of the table, for any list of partitions |
| ConsumerHandlers.RetainedRidesAlong | mq-consumer/src/main/java/com/mq/consumer/kafka/partition/HandleRebalance.java:86-90 | an offset whose commit failed is committed by the next commit that succeeds |
| ConsumerHandlers.HandleRebalance.OnPartitionsAssigned | mq-consumer/src/main/java/com/mq/consumer/kafka/partition/HandleRebalance.java:45-71 | each partition is sought to the offset of the table if that answers and the seek works, else of Kafka; others keep their position |
| ConsumerLogs.HandledAtMostOnce | mq-consumer/src/main/java/com/mq/consumer/kafka/KafkaConsumerManager.java:111-143 | if log writes land before the next check of the id, and none is dropped, an id is handled at most once over any run |
| ConsumerLogs.HandledExactlyWhen | mq-consumer/src/main/java/com/mq/consumer/kafka/KafkaConsumerManager.java:111-143 | a delivery invokes the handler, once and for its id alone, if and only if the record is valid and its entry is not found |
| ConsumerLogs.DeliveredIsRecognised | mq-consumer/src/main/java/com/mq/consumer/kafka/KafkaConsumerManager.java:111-143 | a new valid record that is delivered, done with and written is handled once, and recognised when it comes again |
| ConsumerLogs.HandledAtMostOncePlusExcuses | mq-consumer/src/main/java/com/mq/consumer/kafka/KafkaConsumerManager.java:111-143 | over any run at all, at most once plus once for each unanswered check, check before an entry has landed, or lost trace |
| ConsumerLogs.NoHandlingOnceLogged | mq-consumer/src/main/java/com/mq/consumer/kafka/biz/impl/KafkaConsumerMsgLogService.java:42-52 | once the entry has landed no delivery whose check is answered reaches the handler |
| ConsumerLogs.LogIdsAgreeExactlyWhen | mq-consumer/src/main/java/com/mq/consumer/kafka/biz/impl/KafkaConsumerMsgLogService.java:58-66 | with digests free of dashes two log ids agree if and only if the digests and the joins of topic and group do |
| ConsumerLogs.LogIdInjective | mq-consumer/src/main/java/com/mq/consumer/kafka/biz/impl/KafkaConsumerMsgLogService.java:58-66 | within a group, and within a topic, log ids are as good as keys |
| ConsumerLogs.LogIdsCollide | mq-consumer/src/main/java/com/mq/consumer/kafka/biz/impl/KafkaConsumerMsgLogService.java:58-66 | counterexample: two different pairs of topic and group share their log ids |
| ConsumerLogs.JoinsCollideExactlyWhen | mq-consumer/src/main/java/com/mq/consumer/kafka/biz/impl/KafkaConsumerMsgLogService.java:58-66 | when two joins by a dash agree |
| ConsumerLogs.OffsetIdInjective | mq-consumer/src/main/java/com/mq/consumer/kafka/biz/impl/KafkaConsumerOffsetLogService.java:40-48 | within a group an offset id tells any two partitions of any two topics apart |
| RedisLock.AtMostOneOwner | mq-redis-integration/src/main/java/com/mq/redis/lock/GlobalLock.java:57-143 | in every reachable state at most one thread owns a key, and a thread at most one key |
| RedisLock.TenureEndsExactlyBy | mq-redis-integration/src/main/java/com/mq/redis/lock/GlobalLockLuaExecuter.java:18-23 | a tenure ends if and only if the key expires or an unlock script with that very token runs |
| RedisLock.OwnerKeepsKey | mq-redis-integration/src/main/java/com/mq/redis/lock/GlobalLock.java:57-143 | an owner with no unlock of its own pending keeps the key with its token over every run in which the key does not expire and it does not unlock, whatever all other threads do |
| RedisLock.OwnershipPassesOnlyBy | mq-redis-integration/src/main/java/com/mq/redis/lock/GlobalLock.java:57-143 | so a key passes from one thread to another only if it expires or the first unlocks |
| RedisLock.OnlyOwnTokenIsSent | mq-redis-integration/src/main/java/com/mq/redis/lock/GlobalLock.java:127-133 | an unlock script is only sent by the thread that generated its token, while it holds it |
| RedisLock.AttemptTakesExactlyFree | mq-redis-integration/src/main/java/com/mq/redis/lock/GlobalLock.java:62-69 | an answered attempt makes the thread the owner if and only if the key is free |
| RedisLock.UnlockFreesExactlyOwn | mq-redis-integration/src/main/java/com/mq/redis/lock/GlobalLock.java:127-133 | unlock and its script free the key if and only if the key still carries the token of that thread |
| RedisLock.UnlockWithoutTokenIsLocal | mq-redis-integration/src/main/java/com/mq/redis/lock/GlobalLockRedisFactory.java:70-82 | an unlock without a token, after a failed tryLock or by the cleanup, changes nothing but the semaphore, which gets its one permit back |
| RedisLock.SemaphoreStaysBinary | mq-redis-integration/src/main/java/com/mq/redis/lock/GlobalLock.java:134-142 | over all interleavings every semaphore has zero or one permit |
| RedisLock.ForgottenUntilExpiry | mq-redis-integration/src/main/java/com/mq/redis/lock/GlobalLockValue.java:35-62 | a token no thread remembers keeps its key locked until expiry, through every run |
| RedisLock.NestedLockLeaks | mq-redis-integration/src/main/java/com/mq/redis/lock/GlobalLockValue.java:44-46 | taking a second lock does this to the first |
| RedisLock.FailedTryForgetsHeldLock | mq-redis-integration/src/main/java/com/mq/redis/lock/GlobalLock.java:127-143 | and so does the unlock that follows a failed tryLock on a second lock |
| RedisLock.TokensStayInPlace | mq-redis-integration/src/main/java/com/mq/redis/lock/GlobalLockValue.java:35-74 | over every run a token lies only under the key it was generated for and with the thread that generated it |
| GlobalLock.Lock.TryLock | mq-redis-integration/src/main/java/com/mq/redis/lock/GlobalLock.java:93-122 | succeeds if and only if there is a permit, the key is free, and the first attempt that reaches Redis is answered, within the timeout and before any interruption; then its own token is under the key; else the key is as it was, or holds the token of that attempt; how many attempts it makes and how long it sleeps in each case |
| GlobalLock.Lock.Unlock | mq-redis-integration/src/main/java/com/mq/redis/lock/GlobalLock.java:127-143 | frees the key if and only if the script runs and the key carries the own token, restores the one permit, forgets the token |
| GlobalLock.Lock.Bracket | mq-service/src/main/java/com/mq/kafka/scheduler/KakaMQMessageTask.java:76-96 | tryLock followed by unlock in a finally: the work is done exactly when tryLock succeeds, and a foreign lock is untouched |
| LockTiming.RefusedLoopEnds | mq-redis-integration/src/main/java/com/mq/redis/lock/GlobalLock.java:103-121 | for 0 < timeout with timeout + wait in int range, the refused loop makes exactly floor(timeout/wait) attempts |
| LockTiming.EndsExactlyWhen | mq-redis-integration/src/main/java/com/mq/redis/lock/GlobalLock.java:103-104 | for every positive period and timeout the refused loop ends if and only if the timeout is less than the largest multiple of gcd(wait, 2^32) that fits an int |
| LockTiming.DefaultPeriodEnds | mq-redis-integration/src/main/java/com/mq/redis/lock/GlobalLock.java:103-104 | with the default period of 150, for a timeout of at least that, if and only if the timeout is less than 2147483646 |
| LockTiming.ZeroTimeoutNeverEnds | mq-redis-integration/src/main/java/com/mq/redis/lock/GlobalLock.java:103-104 | with timeout 0 it never ends |
| LockTiming.NegativeTimeoutAttemptsOnce | mq-redis-integration/src/main/java/com/mq/redis/lock/GlobalLock.java:103-117 | a negative timeout makes one attempt and then sleeps a negative time, which throws |
| LockTiming.CountsExactly | mq-redis-integration/src/main/java/com/mq/redis/lock/GlobalLock.java:104 | the wrapping counter is exact as long as it fits |
| Packages.CheckPackages | mq-define/src/main/java/com/mq/common/utils/ClassUtil.java:105-146 | for every set of names and every order of visits the result is the same set: the names passed over and the topmost normal names |
| Packages.Insert | mq-define/src/main/java/com/mq/common/utils/ClassUtil.java:124-143 | the inner scan removes everything below the name and adds it unless something is above it |
| Packages.ReducedIsCoveringAntichain | mq-define/src/main/java/com/mq/common/utils/ClassUtil.java:105-146 | no name of the result lies below a normal one, and every proper input is in the result or below a name there |
| Packages.WithoutWordsOnlyTopsRemain | mq-define/src/main/java/com/mq/common/utils/ClassUtil.java:105-146 | without the words that count as empty, a proper name remains if and only if it is a normal name below no other |
| Packages.BelowExactlyWhen | mq-define/src/main/java/com/mq/common/utils/ClassUtil.java:124-143 | a name lies below a package if and only if the components of the package are a proper prefix of its own |
| Packages.TrailingDotIsDropped | mq-define/src/main/java/com/mq/common/utils/ClassUtil.java:119-122 | a package with a trailing dot remains under its name without it, once |
| Templates.Format | mq-define/src/main/java/com/mq/common/utils/StringUtils.java:246-295 | never indexes out of range, ends, and equals the reading from left to right |
| Templates.MoveReads | mq-define/src/main/java/com/mq/common/utils/StringUtils.java:270-290 | looking back for backslashes before the handled position does no harm |
| Templates.FillsInOrder | mq-define/src/main/java/com/mq/common/utils/StringUtils.java:246-295 | plain text is copied and its placeholders take the arguments in order, the rest staying |
| Templates.EscapeKeepsArgument | mq-define/src/main/java/com/mq/common/utils/StringUtils.java:277-283 | an escaped placeholder comes out as {} without its backslash and leaves its argument to the next |
| Templates.DoubledEscapeFills | mq-define/src/main/java/com/mq/common/utils/StringUtils.java:272-276 | a doubled backslash comes out as one and the placeholder behind it takes its argument |
| Templates.IndexOfPlaceholder | mq-define/src/main/java/com/mq/common/utils/StringUtils.java:261 | the first placeholder from a position on, or -1 |
| Naming.CamelRoundTripExactlyWhen | mq-define/src/main/java/com/mq/common/utils/StringUtils.java:396-438 | camelCaseName(underscoreName(s)) = s if and only if s has no underscore and no leading capital |
| Naming.UnderscoreRoundTripExactlyWhen | mq-define/src/main/java/com/mq/common/utils/StringUtils.java:396-438 | underscoreName(camelCaseName(u)) = u if and only if u has no capital, no leading underscore and a small letter after every underscore |
| Naming.UnderscoreName | mq-define/src/main/java/com/mq/common/utils/StringUtils.java:396-411 | the loop computes the function of the round trips |
| Naming.CamelCaseName | mq-define/src/main/java/com/mq/common/utils/StringUtils.java:419-438 | the loop with its flag computes the function of the round trips |
| Paging.DialectsAgreeExactlyWhen | mq-define/src/main/java/com/mq/common/pagehelper/PageHelper.java:225-243 | all dialects select the same rows if and only if the page number is positive or there are none |
| Paging.PagesMakeWhole | mq-define/src/main/java/com/mq/common/entity/page/Page.java:92-95 | pages 1 to pages, one after the other, are all the rows, and none is empty |
| Paging.Page.SetTotal | mq-define/src/main/java/com/mq/common/entity/page/Page.java:92-95 | pages is the least number of pages that hold all rows |
| Paging.Page.PageRows | mq-define/src/main/java/com/mq/common/pagehelper/PageHelper.java:225-243 | consecutive rows from the start row on and, when the end row is a page further, as many as are left of one page, whatever the dialect |

## Left out

- SqlParser.ProcessSelectBody: syntax tree nodes are values, so that a traversal returns the new node where the
  source changes it in place; only the statement itself is an object. Sharing of nodes between two places of a
  tree is not captured.
- SqlCountMeaning.CountPreserved: sub-selects inside expressions are opaque parts of expressions, and the code
  does not descend into them either; DISTINCT ON is not modelled; LIMIT, OFFSET and TOP are one construct;
  aggregates do not depend on the order of rows; a HAVING without GROUP BY makes one group, as in standard SQL.
  Recursive WITH items, and WITH lists inside sub-selects, are not modelled. An expression node that is not a
  function call is a `Compound` under the name of its operator, so that `group_concat` is one whose operator
  aggregates and an analytic function one whose operator does not.
- SqlCountMeaning.CountExact: a nested LIMIT under which a removable ORDER BY goes is exact for a select from a
  page of one table (`PageExact`); for pages of joins, of groups or of DISTINCT rows that something looks at,
  that the rewriting leaves them alone is sufficient but not shown necessary.
- SqlCountLimits.GuardExact: the number that a LIMIT or OFFSET expression stands for is arbitrary, for literals
  too, so `offset 0` without a row count, which a real database counts rightly, is on its failing side.
- WeightLoadBalancer.WeightLoadBalancer.Get: weights are unbounded integers; with nonnegative weights
  `LevelStaysInRange` shows that the 32-bit field cannot overflow, and negative weights near the lower end of
  the range are not considered.
- CompensationPass.MessageTask.OnWork: the text stored with a row always parses back to a message, the retry
  count is never absent, and nobody else changes the table during the pass; the protocol modules drop the last
  restriction.
- ProducerProtocol.NoRecordedMessageLost: the request log, offsets and partitions of rows, and the throwing of
  the interceptor's conditional update, after which its second save does not happen, are left out; a crash of
  the client at that point stands for the latter.
- ProducerRetries.SixResendsAtMost: that one compensator works at a time is a condition, which is what the
  lock is for; for two at once no bound is stated. Resends are not intercepted: the pointcut
  (`mq-service-api/src/main/java/com/mq/interceptor/KafkaMQClientIntercepter.java:57`) names
  `com.mq.kafka.*.KafkaMQService` with one package level, while the interface lies in `com.mq.kafka.biz.api`.
  If it matched, each resend would store its row anew with retrytimes 0 and the bound would fail.
- ProducerProtocol.SeenNormalIsNotResent: it is about what the last look finds; an acknowledgement between that
  look and the send still lets a confirmed message be sent again.
- SenderCallback.Callback.Handle4MessageLog: the executor that runs it is taken to run it.
- ConsumerHandlers.KafkaConsumerManager.ProcessBatch: a work-log executor that rejects, and a `commitAsync`
  that throws, are not modelled there; the protocol allows a record to be attempted without being noted.
- ConsumerOffsets.RunKeepsInv: consumers commit at arbitrary moments there, which covers the schedule of
  `ProcessBatch`; offsets and ids are those of one consumer group; expiry of Kafka's own commits is left out.
- ConsumerTable.OneOwnerNeverGoesBack: a partition that is assigned again, even to the same consumer, resumes at
  an offset the table may hold late, and is covered by `NeverGoesBackExactlyWhen` alone.
- ConsumerLogs.HandledAtMostOnce: log entries never expire.
- RedisLock.AtMostOneOwner: freshness of tokens is assumed, and the unit of the expiry argument is not modelled.
- ClientInterceptor.InterceptionOutcome: a mark that lands where the first save did not meets an older row with
  the id, if any; `ProducerTurns.FailedSendIsMarked` covers it.
- GlobalLock.Lock.TryLock: `lock()` has no end while attempts are refused, so its loop appears only as steps of
  `RedisLock`; the wait for the semaphore's permit, at most the timeout, is not counted into the time slept.
- Packages.CheckPackages: splitting the argument at commas is left out.
- Naming.CamelRoundTripExactlyWhen: letters are ASCII.
- Paging.PagesMakeWhole: 32-bit overflow of row numbers is left out; so is the reflection in `PageHelper.intercept`.
- Hash balancers, partitioners, HTML and SQL filters, the code generator, the user interface and configuration:
  they would only add easy members.
