# Query admission and page building, modelled in Dafny

This project models two pieces of a distributed SQL engine's execution layer.

**Query queue manager** (`execution.dfy`, module `Execution`). Every submitted query is routed by
an ordered list of queuing rules: the first rule that matches the query's session names a chain
of queue definitions. Each definition's name is expanded for the session into a registry key. The
manager looks the key up in its registry of live queues and creates, registers and exports a new
queue when the key is missing. `Submit` then reserves a slot in every queue of the chain in order.
It stops with `false` at the first refusal. Otherwise it hands the query, together with the rest
of its chain, to the head queue. The rule list is built once: two built-in rules ("big" for big
queries, "global" for everything else), or the rules of a configuration file. Configuration rule
specifications accept extra `session.<property>` keys as session-property patterns.

**Page builder** (`operator.dfy`, module `Operator`). A page builder holds one block builder per
output channel. Each builder's block limit is the page limit shared out over the channels,
through a narrowing `long`-to-`int` cast. A position counter serves pages with no channels. The
model covers `reset`, `isFull` (an early-exit scan over the builders), `isEmpty` (judged by
builder 0 alone), `getSize` and `build`.

`java_ints.dfy` (module `JavaInts`) holds the JVM `int`/`long` bounds and two's-complement
wrap-around. `wrappers.dfy` (module `Wrappers`) holds `Option`, `Result` and `Outcome`.

Modelling choices:
- A Java exception is a `Failure` value in a `Result` or `Outcome`.
- `QueryQueueRule.match` and `QueryQueueDefinition.getExpandedTemplate` are function-typed fields of the manager (`matches`, `expand`).
- A queue's replies to `reserve` and `enqueue` are nondeterministic. The manager keeps a ghost trace `calls` of every reserve and enqueue call, in order.
- The MBean exports are a ghost sequence `exported`.
- The registry's `putIfAbsent` runs without interference.

## Model

| member | source | states |
|---|---|---|
| Execution.StripSessionPrefix | presto-main/src/main/java/com/facebook/presto/execution/SqlQueryQueueManager.java:219-220 | a key is accepted exactly when it starts with `session.`, and the stored name with that prefix put back is the key |
| Execution.StripSessionPrefixInverse | presto-main/src/main/java/com/facebook/presto/execution/SqlQueryQueueManager.java:216-221 | every property name `p` can be configured: the key `session.` + `p` is stored under `p` |
| Execution.RuleSpec.constructor | presto-main/src/main/java/com/facebook/presto/execution/SqlQueryQueueManager.java:202-214 | a new rule specification keeps its user, source and queue list and starts with no session-property patterns |
| Execution.RuleSpec.SetSessionProperty | presto-main/src/main/java/com/facebook/presto/execution/SqlQueryQueueManager.java:216-221 | a key without the prefix fails with `IllegalArgumentException("Unrecognized property: " + key)` and changes nothing; otherwise the pattern is stored under the stripped name, replacing an earlier one; read back through `GetSessionPropertyRegexes` (lines 235-238), the stripped name maps to the new pattern and every other name keeps its presence and pattern |
| Execution.ResolveConfiguredQueues | presto-main/src/main/java/com/facebook/presto/execution/SqlQueryQueueManager.java:79-85 | against the definitions built from the configured queues, a rule's queue names resolve exactly when each is a configured queue, and each becomes a definition of that name with its queue's `maxConcurrent` and `maxQueued` |
| Execution.ResolveQueues | presto-main/src/main/java/com/facebook/presto/execution/SqlQueryQueueManager.java:85 | a rule's queue names resolve exactly when all are defined, to their definitions in order; otherwise the error names the first undefined one |
| Execution.CreateRules | presto-main/src/main/java/com/facebook/presto/execution/SqlQueryQueueManager.java:84-86 | on success there is one rule per specification, in file order; on failure the error is that of the first specification that fails, and every earlier one succeeds |
| Execution.FirstMatch | presto-main/src/main/java/com/facebook/presto/execution/SqlQueryQueueManager.java:110-115 | the result is the position of a matching rule before which no rule matches; None exactly when no rule matches |
| Execution.FirstMatchWins | presto-main/src/main/java/com/facebook/presto/execution/SqlQueryQueueManager.java:110-114 | when no earlier rule matches and a rule matches, the chain is that rule's match, whatever the later rules are |
| Execution.NoMatchIsUserError | presto-main/src/main/java/com/facebook/presto/execution/SqlQueryQueueManager.java:110-116 | the `USER_ERROR` "Query did not match any queuing rule" arises if and only if no rule matches |
| Execution.DefaultRulesRouteEveryQuery | presto-main/src/main/java/com/facebook/presto/execution/SqlQueryQueueManager.java:64-69 | with the built-in rules and a matcher that returns a rule's own chain and matches a pattern-free rule, every query goes to ["big"] when the big-query rule matches and to ["global"] otherwise, each with its configured limits |
| Execution.NewNamesExportedOnce | presto-main/src/main/java/com/facebook/presto/execution/SqlQueryQueueManager.java:124-130 | the names a chain exports are exactly its names that were not registered, each once |
| Execution.ResolvedUpToStep | presto-main/src/main/java/com/facebook/presto/execution/SqlQueryQueueManager.java:122-133 | one more lookup-or-create keeps the registry growth, the live-queue lookups, the new-queue limits and the export order of the chain so far |
| Execution.SqlQueryQueueManager.Create | presto-main/src/main/java/com/facebook/presto/execution/SqlQueryQueueManager.java:57-89 | without a configuration file the manager gets the two built-in rules; with one it gets the file's rules in order, or fails with the first rule's error; the registry, exports and trace start empty |
| Execution.SqlQueryQueueManager.PutIfAbsent | presto-main/src/main/java/com/facebook/presto/execution/SqlQueryQueueManager.java:126 | returns the registered queue and leaves the registry unchanged, or returns None and registers the new queue |
| Execution.SqlQueryQueueManager.GetOrCreateQueue | presto-main/src/main/java/com/facebook/presto/execution/SqlQueryQueueManager.java:123-132 | a registered name yields its queue and changes nothing; a new name gets a fresh queue with the definition's `maxQueued` and `maxConcurrent`, is registered and is exported once |
| Execution.SqlQueryQueueManager.GetOrCreateQueues | presto-main/src/main/java/com/facebook/presto/execution/SqlQueryQueueManager.java:119-135 | the result holds, in chain order, the registered queue of each expanded name; no entry is replaced; exactly the missing names are added, with fresh queues; a name's first new occurrence sets its limits; exports grow by the new names in order of first occurrence; every registered name stays exported exactly once |
| Execution.SqlQueryQueueManager.SelectQueues | presto-main/src/main/java/com/facebook/presto/execution/SqlQueryQueueManager.java:108-117 | with no matching rule it fails with the user error and leaves the registry alone; otherwise it resolves the first matching rule's chain as above |
| Execution.SqlQueryQueueManager.ReserveChain | presto-main/src/main/java/com/facebook/presto/execution/SqlQueryQueueManager.java:96-102 | reserves in chain order: granted calls up to the first refusal and then that refusal, or granted calls on the whole chain |
| Execution.SqlQueryQueueManager.Submit | presto-main/src/main/java/com/facebook/presto/execution/SqlQueryQueueManager.java:92-105 | routing errors propagate with no queue call; a refusal returns `false` after granted reservations on the earlier queues, with no release and no enqueue; an empty chain fails with `IndexOutOfBoundsException` after routing; otherwise every queue was reserved in order and the head queue got the query with the rest of its chain, and its answer is returned |
| JavaInts.WrapInt | presto-main/src/main/java/com/facebook/presto/operator/PageBuilder.java:34 | the stored value is an `int` congruent to the mathematical value modulo 2^32, and equal to it when it fits |
| JavaInts.IncrementWraps | presto-main/src/main/java/com/facebook/presto/operator/PageBuilder.java:68-71 | `x++` is exact below `Integer.MAX_VALUE` and wraps to `Integer.MIN_VALUE` at it |
| Operator.MaxBlockSize | presto-main/src/main/java/com/facebook/presto/operator/PageBuilder.java:33-37 | zero with no channels; otherwise the page limit divided by the channel count when that fits an `int`, and its 32-bit truncation when it does not |
| Operator.DefaultMaxBlockSize | presto-main/src/main/java/com/facebook/presto/operator/PageBuilder.java:19-34 | with the default 4 MB page every channel's block limit is exactly 4 MB divided by the channel count |
| Operator.OversizedPageWrapsBlockSize | presto-main/src/main/java/com/facebook/presto/operator/PageBuilder.java:34 | the cast does not saturate: one channel with a 4 GiB page gets limit 0, and one with a 2 GiB page gets `Integer.MIN_VALUE` |
| Operator.ScanReportsFullClosedForm | presto-main/src/main/java/com/facebook/presto/operator/PageBuilder.java:73-90 | the early-exit scan says full exactly when the counter is at `Integer.MAX_VALUE`, some builder is full, or the builders' total size exceeds the page limit |
| Operator.TotalSizeFitsLong | presto-main/src/main/java/com/facebook/presto/operator/PageBuilder.java:97-104 | with at most `Integer.MAX_VALUE` channels of `int` sizes the `long` running total cannot overflow |
| Operator.TotalSizeOfEmptyBuilders | presto-main/src/main/java/com/facebook/presto/operator/PageBuilder.java:53-57 | builders that hold nothing have total size 0 |
| Operator.BlockBuilder.constructor | presto-main/src/main/java/com/facebook/presto/operator/PageBuilder.java:41 | a new builder keeps its tuple info and block limit, has size 0 and is empty |
| Operator.PageBuilder.NewBuilders | presto-main/src/main/java/com/facebook/presto/operator/PageBuilder.java:39-42 | one fresh, new builder per tuple info, in order, all with the same block limit, no two the same object |
| Operator.PageBuilder.constructor | presto-main/src/main/java/com/facebook/presto/operator/PageBuilder.java:31-44 | the block limit is `MaxBlockSize` of the channel count and page limit; each channel has a fresh, new builder of its own for its tuple info; the page limit is kept, the counter is 0, and the page is empty (`isEmpty`, lines 92-95) |
| Operator.PageBuilder.WithDefaultMaxSize | presto-main/src/main/java/com/facebook/presto/operator/PageBuilder.java:26-29 | the same as the constructor, with the 4 MB default page limit; the new page is empty |
| Operator.PageBuilder.Reset | presto-main/src/main/java/com/facebook/presto/operator/PageBuilder.java:46-58 | the counter is 0 and the page is empty (`isEmpty`, lines 92-95) afterwards; when builder 0 was empty, or there are no channels, the builders are untouched; otherwise every builder is replaced by a fresh, new one for the same tuple info, and the total size is 0; channels never share a builder |
| Operator.PageBuilder.ChannelsHaveOwnBuilders | presto-main/src/main/java/com/facebook/presto/operator/PageBuilder.java:60-63 | `getBlockBuilder` yields a builder exactly for the channels in range, different channels yield different builders, and channel `c`'s builder is the one whose state `isFull`, `getSize` and `build` read at position `c` |
| Operator.PageBuilder.DeclarePosition | presto-main/src/main/java/com/facebook/presto/operator/PageBuilder.java:68-71 | the counter becomes its `int` increment, wrapping at the maximum |
| Operator.PageBuilder.IsFull | presto-main/src/main/java/com/facebook/presto/operator/PageBuilder.java:73-90 | the result is what the early-exit scan reports, which is: counter at `Integer.MAX_VALUE`, or a full builder, or a total size over the page limit |
| Operator.PageBuilder.GetSize | presto-main/src/main/java/com/facebook/presto/operator/PageBuilder.java:97-104 | the sum of the builders' sizes, which lies between 0 and `Long.MAX_VALUE` |
| Operator.PageBuilder.Build | presto-main/src/main/java/com/facebook/presto/operator/PageBuilder.java:106-117 | with no channels, a page of the declared position count; otherwise one block per channel, in channel order, each built from that channel's builder |

Members without a row of their own, and the rows that cover them:
- `Execution.RuleSpec.GetSessionPropertyRegexes` (lines 235-238): the `SetSessionProperty` row.
- `Execution.Definitions` (lines 79-82) and `Execution.CreateRule` (line 85): the `ResolveConfiguredQueues`, `ResolveQueues` and `CreateRules` rows.
- `Execution.DefaultRules` (lines 64-68) and `Execution.ConfiguredRules` (lines 63-88): the `DefaultRulesRouteEveryQuery` and `Create` rows.
- `Execution.SelectChain` (lines 110-116): the `FirstMatchWins`, `NoMatchIsUserError` and `SelectQueues` rows.
- `Execution.SqlQueryQueueManager.Init` (line 88): the `Create` row.
- `Operator.PageBuilder.GetBlockBuilder` (PageBuilder.java:60-63): the `ChannelsHaveOwnBuilders` row.
- `Operator.PageBuilder.IsEmpty` (PageBuilder.java:92-95): the `constructor`, `WithDefaultMaxSize` and `Reset` rows.
- `Operator.BuilderState.Build` (PageBuilder.java:114): the `Build` row.

## Left out

- Reading and deserialising the queue configuration file (JSON through an `ObjectMapper`, and the `IOException` path) is not modelled. The configuration holds the file's parsed contents directly.
- MBean export and `destroy` are not modelled. The exports are a ghost sequence of names, and `destroy`'s unexports are left out.
- Concurrency is not modelled. Calls run one at a time, so `putIfAbsent` never loses a race and the branch where a created queue is discarded is unreachable in the model.
- The executor and the statistics object passed to `submit` and to `QueryQueue` are dropped, as is `createQueuedExecution` beyond pairing the query with the rest of its chain.
- `QueryQueue` is abstract. Its capacity check, backlog and FIFO release are not part of this model, so `Reserve` and `Enqueue` may answer either way and change no modelled state. Their calls are recorded in the manager's trace.
- Execution.SqlQueryQueueManager.Submit: a refusal releases nothing. An immediate rollback of the reservations already taken is not what the code does: it leaves their release to the failing query (SqlQueryQueueManager.java:97-100). The model follows the code.
- Rule matching (`QueryQueueRule.match`, with its regular expressions) and name expansion (`getExpandedTemplate`) are abstract functions. `DefaultRulesRouteEveryQuery` assumes only that a match returns the rule's own chain and that a rule without patterns matches.
- `QueryQueueRule.createRule` is not part of this model. `CreateRule` resolves the rule's queue names against the definitions in order and keeps the rule's patterns; an undefined name gives `UndefinedQueue`.
- The session property named by `BIG_QUERY` is taken to be `"big_query"`. `SystemSessionProperties`, which defines it, is not part of this model.
- Execution.RuleSpec.GetSessionPropertyRegexes: Java's `ImmutableMap.copyOf` makes a new map; in the model the copy is the stored map value, which later `SetSessionProperty` calls cannot change anyway.
- Block builders are abstract. Appending values is done by callers through `GetBlockBuilder` and is not modelled. A new builder is assumed to have size 0 and to be empty; whether it reports full is left open.
- The floating-point capacity hints (`maxBlockSize * 1.5` and `size() * 1.5`) and the `DynamicSliceOutput` they size are not modelled. A constructor or `reset` that fails on a negative or very large hint is therefore not captured: with a 2 GiB one-channel page, for instance, `maxBlockSize` is `Integer.MIN_VALUE` and the hint passed at PageBuilder.java:41 is negative, yet the model's constructor completes.
- `DataSize` is a byte count (`nat`, at most `Long.MAX_VALUE`). Megabytes are 1024 * 1024 bytes.
- Operator.PageBuilder.GetBlockBuilder: an out-of-range channel gives None instead of an `ArrayIndexOutOfBoundsException`.
