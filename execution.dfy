/** Query admission: first-match routing of a query's session over an ordered rule list, a
    registry of live queues keyed by expanded queue name, and chained reservation in `Submit`. */
module Execution {
  import opened Wrappers

  // ---------------------------------------------------------------------------------------
  // Errors and constants
  // ---------------------------------------------------------------------------------------

  /** The standard error codes raised here. */
  datatype StandardErrorCode = USER_ERROR

  /** The exceptions the modelled code raises. */
  datatype Failure =
    | PrestoException(code: StandardErrorCode, message: string)
    | IllegalArgumentException(message: string)
    | IndexOutOfBoundsException
    | UndefinedQueue(name: string)

  const NO_MATCHING_RULE: string := "Query did not match any queuing rule"

  /** The prefix that marks a rule-specification key as a session-property pattern. */
  const SESSION_PREFIX: string := "session."

  /** The session property naming a big query. */
  const BIG_QUERY: string := "big_query"

  // ---------------------------------------------------------------------------------------
  // Data model
  // ---------------------------------------------------------------------------------------

  /** A compiled regular expression; matching is not part of this model. */
  datatype Pattern = Pattern(regex: string, caseInsensitive: bool)

  /** The classification attributes of a query. */
  datatype Session = Session(user: string, source: Option<string>, systemProperties: map<string, string>)

  datatype QueryExecution = QueryExecution(queryId: string, session: Session)

  /** A named queue configuration; the name may be a template expanded per session. */
  datatype QueueDefinition = QueueDefinition(template: string, maxConcurrent: int, maxQueued: int)

  /** A routing rule: optional patterns and the chain of queue definitions it routes through. */
  datatype QueryQueueRule = QueryQueueRule(
    userRegex: Option<Pattern>,
    sourceRegex: Option<Pattern>,
    sessionPropertyRegexes: map<string, Pattern>,
    definitions: seq<QueueDefinition>)

  /** `QueryQueueRule.match`: the chain a rule routes a session through, or None (null). */
  type RuleMatcher = (QueryQueueRule, Session) -> Option<seq<QueueDefinition>>

  /** `QueryQueueDefinition.getExpandedTemplate`: the registry key of a definition for a session. */
  type NameExpander = (QueueDefinition, Session) -> string

  /** The limits of one configured queue, as read from the configuration file. */
  datatype QueueSpec = QueueSpec(maxQueued: int, maxConcurrent: int)

  /** The deserialised contents of the queue configuration file. */
  datatype ManagerSpec = ManagerSpec(queues: map<string, QueueSpec>, rules: seq<RuleSpec>)

  /** The manager's configuration; `queueConfigFile` holds the file's contents when one is set. */
  datatype QueryManagerConfig = QueryManagerConfig(
    queueConfigFile: Option<ManagerSpec>,
    maxConcurrentQueries: int,
    maxQueuedQueries: int,
    maxConcurrentBigQueries: int,
    maxQueuedBigQueries: int)

  // ---------------------------------------------------------------------------------------
  // Rule specifications
  // ---------------------------------------------------------------------------------------

  /** The key a `session.<property>` entry is stored under: the property name, or None when the
      key lacks the prefix. */
  function StripSessionPrefix(key: string): (r: Option<string>)
    ensures r.Some? <==> SESSION_PREFIX <= key
    ensures r.Some? ==> SESSION_PREFIX + r.value == key
  {
    if SESSION_PREFIX <= key then Some(key[|SESSION_PREFIX|..]) else None
  }

  /** Prefixing and stripping are inverse: every property name can be configured. */
  lemma StripSessionPrefixInverse(property: string)
    ensures StripSessionPrefix(SESSION_PREFIX + property) == Some(property)
  {
    assert SESSION_PREFIX <= SESSION_PREFIX + property;
    assert (SESSION_PREFIX + property)[|SESSION_PREFIX|..] == property;
  }

  /** One rule of the configuration file while it is being deserialised. */
  class RuleSpec {
    const userRegex: Option<Pattern>
    const sourceRegex: Option<Pattern>
    var sessionPropertyRegexes: map<string, Pattern>
    const queues: seq<string>

    constructor (userRegex: Option<Pattern>, sourceRegex: Option<Pattern>, queues: seq<string>)
      ensures this.userRegex == userRegex && this.sourceRegex == sourceRegex && this.queues == queues
      ensures sessionPropertyRegexes == map[]
    {
      this.userRegex := userRegex;
      this.sourceRegex := sourceRegex;
      this.queues := queues;
      sessionPropertyRegexes := map[];
    }

    /** Any other key of the rule's JSON object: it must be `session.<property>`, and the pattern
        is stored under `<property>`, replacing an earlier one. */
    method SetSessionProperty(property: string, value: Pattern) returns (r: Outcome<Failure>)
      modifies this`sessionPropertyRegexes
      ensures StripSessionPrefix(property).None? ==>
                r == Fail(IllegalArgumentException("Unrecognized property: " + property)) &&
                sessionPropertyRegexes == old(sessionPropertyRegexes)
      ensures StripSessionPrefix(property).Some? ==>
                r == Pass &&
                sessionPropertyRegexes == old(sessionPropertyRegexes)[StripSessionPrefix(property).value := value]
      ensures StripSessionPrefix(property).Some? ==>
                var name := StripSessionPrefix(property).value;
                name in GetSessionPropertyRegexes() && GetSessionPropertyRegexes()[name] == value
      ensures forall other :: StripSessionPrefix(property) != Some(other) ==>
                (other in GetSessionPropertyRegexes() <==> other in old(GetSessionPropertyRegexes())) &&
                (other in old(GetSessionPropertyRegexes()) ==>
                   GetSessionPropertyRegexes()[other] == old(GetSessionPropertyRegexes())[other])
    {
      var name := StripSessionPrefix(property);
      if name.None? {
        return Fail(IllegalArgumentException("Unrecognized property: " + property));
      }
      sessionPropertyRegexes := sessionPropertyRegexes[name.value := value];
      return Pass;
    }

    /** An immutable copy of the stored patterns. */
    function GetSessionPropertyRegexes(): map<string, Pattern>
      reads this
    {
      sessionPropertyRegexes
    }
  }

  /** The queue definitions of the configuration file, one per configured queue name. */
  function Definitions(queues: map<string, QueueSpec>): map<string, QueueDefinition>
  {
    map n | n in queues :: QueueDefinition(n, queues[n].maxConcurrent, queues[n].maxQueued)
  }

  /** Resolves a rule's queue names to definitions, rejecting the first undefined name. */
  function ResolveQueues(names: seq<string>, definitions: map<string, QueueDefinition>): (r: Result<seq<QueueDefinition>, Failure>)
    ensures r.Success? <==> forall i :: 0 <= i < |names| ==> names[i] in definitions
    ensures r.Success? ==>
              |r.value| == |names| && forall i :: 0 <= i < |names| ==> r.value[i] == definitions[names[i]]
    ensures r.Failure? ==>
              exists i :: (0 <= i < |names| && names[i] !in definitions && r.error == UndefinedQueue(names[i]) &&
                           forall j :: 0 <= j < i ==> names[j] in definitions)
  {
    if |names| == 0 then Success([])
    else if names[0] !in definitions then Failure(UndefinedQueue(names[0]))
    else match ResolveQueues(names[1..], definitions)
      case Success(rest) => Success([definitions[names[0]]] + rest)
      case Failure(e) => Failure(e)
  }

  /** A rule's queue names resolve against the configured queues exactly when every name is a
      configured queue, and each then becomes a definition of that name with its queue's limits. */
  lemma ResolveConfiguredQueues(names: seq<string>, queues: map<string, QueueSpec>)
    ensures ResolveQueues(names, Definitions(queues)).Success? <==> forall i :: 0 <= i < |names| ==> names[i] in queues
    ensures ResolveQueues(names, Definitions(queues)).Success? ==>
              forall i :: 0 <= i < |names| ==>
                ResolveQueues(names, Definitions(queues)).value[i] ==
                  QueueDefinition(names[i], queues[names[i]].maxConcurrent, queues[names[i]].maxQueued)
  {
  }

  /** `QueryQueueRule.createRule`: a rule from one specification. */
  function CreateRule(spec: RuleSpec, definitions: map<string, QueueDefinition>): Result<QueryQueueRule, Failure>
    reads spec
  {
    match ResolveQueues(spec.queues, definitions)
    case Success(chain) =>
      Success(QueryQueueRule(spec.userRegex, spec.sourceRegex, spec.GetSessionPropertyRegexes(), chain))
    case Failure(e) => Failure(e)
  }

  /** The rules of the configuration file, in file order; the first bad rule aborts. */
  function CreateRules(specs: seq<RuleSpec>, definitions: map<string, QueueDefinition>): (r: Result<seq<QueryQueueRule>, Failure>)
    reads set s | s in specs
    ensures r.Success? ==>
              |r.value| == |specs| && forall i :: 0 <= i < |specs| ==> CreateRule(specs[i], definitions) == Success(r.value[i])
    ensures r.Failure? ==>
              exists i :: (0 <= i < |specs| && CreateRule(specs[i], definitions) == Failure(r.error) &&
                           forall j :: 0 <= j < i ==> CreateRule(specs[j], definitions).Success?)
  {
    if |specs| == 0 then Success([])
    else match CreateRule(specs[0], definitions)
      case Failure(e) => Failure(e)
      case Success(rule) =>
        assert forall i :: 0 < i < |specs| ==> specs[i] == specs[1..][i - 1];
        match CreateRules(specs[1..], definitions)
        case Success(rest) => Success([rule] + rest)
        case Failure(e) => Failure(e)
  }

  /** The built-in configuration: big queries go to queue "big", everything else to "global". */
  function DefaultRules(config: QueryManagerConfig): seq<QueryQueueRule>
  {
    var global := QueueDefinition("global", config.maxConcurrentQueries, config.maxQueuedQueries);
    var big := QueueDefinition("big", config.maxConcurrentBigQueries, config.maxQueuedBigQueries);
    [ QueryQueueRule(None, None, map[BIG_QUERY := Pattern("true", true)], [big]),
      QueryQueueRule(None, None, map[], [global]) ]
  }

  /** The rule list the manager is constructed with. */
  function ConfiguredRules(config: QueryManagerConfig): Result<seq<QueryQueueRule>, Failure>
    reads if config.queueConfigFile.Some? then set s | s in config.queueConfigFile.value.rules else {}
  {
    match config.queueConfigFile
    case None => Success(DefaultRules(config))
    case Some(spec) => CreateRules(spec.rules, Definitions(spec.queues))
  }

  // ---------------------------------------------------------------------------------------
  // Rule scan
  // ---------------------------------------------------------------------------------------

  /** The position of the first rule, in list order, that matches the session. */
  function FirstMatch(rules: seq<QueryQueueRule>, session: Session, matches: RuleMatcher): (r: Option<nat>)
    ensures r.Some? ==>
              r.value < |rules| && matches(rules[r.value], session).Some? &&
              forall j :: 0 <= j < r.value ==> matches(rules[j], session).None?
    ensures r.None? ==> forall j :: 0 <= j < |rules| ==> matches(rules[j], session).None?
  {
    if |rules| == 0 then None
    else if matches(rules[0], session).Some? then Some(0)
    else match FirstMatch(rules[1..], session, matches)
      case None => None
      case Some(k) => Some(k + 1)
  }

  /** The definition chain `selectQueues` resolves, or the user error when no rule matches. */
  function SelectChain(rules: seq<QueryQueueRule>, session: Session, matches: RuleMatcher): Result<seq<QueueDefinition>, Failure>
  {
    match FirstMatch(rules, session, matches)
    case Some(i) => Success(matches(rules[i], session).value)
    case None => Failure(PrestoException(USER_ERROR, NO_MATCHING_RULE))
  }

  /** First match wins: once a rule matches, neither the rules after it nor whether they would
      match affect the result; and the error is raised exactly when no rule matches. */
  lemma {:induction false} FirstMatchWins(earlier: seq<QueryQueueRule>, rule: QueryQueueRule, later: seq<QueryQueueRule>,
                                          session: Session, matches: RuleMatcher)
    requires forall j :: 0 <= j < |earlier| ==> matches(earlier[j], session).None?
    requires matches(rule, session).Some?
    ensures SelectChain(earlier + [rule] + later, session, matches) == Success(matches(rule, session).value)
  {
    var rules := earlier + [rule] + later;
    assert rules[|earlier|] == rule;
    assert forall j :: 0 <= j < |earlier| ==> rules[j] == earlier[j];
  }

  lemma NoMatchIsUserError(rules: seq<QueryQueueRule>, session: Session, matches: RuleMatcher)
    ensures SelectChain(rules, session, matches) == Failure(PrestoException(USER_ERROR, NO_MATCHING_RULE))
        <==> forall j :: 0 <= j < |rules| ==> matches(rules[j], session).None?
  {
    var r := FirstMatch(rules, session, matches);
    if r.Some? {
      assert matches(rules[r.value], session).Some?;
    }
  }

  /** A matcher whose match yields the rule's own chain, and for which a rule without any pattern
      matches every session. */
  ghost predicate MatchesOwnChainWithCatchAll(matches: RuleMatcher)
  {
    forall rule, session ::
      && (matches(rule, session).Some? ==> matches(rule, session).value == rule.definitions)
      && (rule.userRegex.None? && rule.sourceRegex.None? && rule.sessionPropertyRegexes == map[] ==>
            matches(rule, session).Some?)
  }

  /** Under the built-in configuration every query is routed: to ["big"] when the big-query rule
      matches it and to ["global"] otherwise; the user error never arises. */
  lemma DefaultRulesRouteEveryQuery(config: QueryManagerConfig, session: Session, matches: RuleMatcher)
    requires MatchesOwnChainWithCatchAll(matches)
    ensures var rules := DefaultRules(config);
            SelectChain(rules, session, matches) ==
              if matches(rules[0], session).Some?
              then Success([QueueDefinition("big", config.maxConcurrentBigQueries, config.maxQueuedBigQueries)])
              else Success([QueueDefinition("global", config.maxConcurrentQueries, config.maxQueuedQueries)])
  {
    var rules := DefaultRules(config);
    assert matches(rules[1], session).Some?;
    if matches(rules[0], session).None? {
      FirstMatchWins([rules[0]], rules[1], [], session, matches);
      assert [rules[0]] + [rules[1]] + [] == rules;
    } else {
      FirstMatchWins([], rules[0], [rules[1]], session, matches);
      assert [] + [rules[0]] + [rules[1]] == rules;
    }
  }

  // ---------------------------------------------------------------------------------------
  // Queues
  // ---------------------------------------------------------------------------------------

  /** A live admission queue. Its capacity bookkeeping and FIFO release are not part of this
      model, so it has no mutable state here: `Reserve` and `Enqueue` may answer either way, and
      the manager records each call in its trace. */
  class QueryQueue {
    const maxQueued: int
    const maxConcurrent: int

    constructor (maxQueued: int, maxConcurrent: int)
      ensures this.maxQueued == maxQueued && this.maxConcurrent == maxConcurrent
    {
      this.maxQueued := maxQueued;
      this.maxConcurrent := maxConcurrent;
    }

    method Reserve(execution: QueryExecution) returns (granted: bool)
    {
      granted :| true;
    }

    method Enqueue(entry: QueuedExecution) returns (accepted: bool)
    {
      accepted :| true;
    }
  }

  /** The task placed in the head queue: the query and the rest of its chain. */
  datatype QueuedExecution = QueuedExecution(execution: QueryExecution, nextQueues: seq<QueryQueue>)

  /** One call the manager made on a queue, with the queue's answer. */
  datatype QueueCall =
    | Reserve(queue: QueryQueue, execution: QueryExecution, granted: bool)
    | Enqueue(queue: QueryQueue, entry: QueuedExecution, accepted: bool)

  /** Successful reservations of `execution` on each queue of `chain`, in order. */
  function Granted(chain: seq<QueryQueue>, execution: QueryExecution): (calls: seq<QueueCall>)
    ensures |calls| == |chain|
    ensures forall i :: 0 <= i < |chain| ==> calls[i] == Reserve(chain[i], execution, true)
  {
    seq(|chain|, i requires 0 <= i < |chain| => Reserve(chain[i], execution, true))
  }

  // ---------------------------------------------------------------------------------------
  // Registry bookkeeping
  // ---------------------------------------------------------------------------------------

  predicate Unique(names: seq<string>)
  {
    forall i, j :: 0 <= i < j < |names| ==> names[i] != names[j]
  }

  function Elements(names: seq<string>): set<string>
  {
    set n | n in names
  }

  /** No entry is replaced or removed going from `before` to `after`. */
  ghost predicate RegistryGrows(before: map<string, QueryQueue>, after: map<string, QueryQueue>)
  {
    before.Keys <= after.Keys && forall n :: n in before ==> after[n] == before[n]
  }

  /** The names of `names` that are not in `known`, in order of first occurrence. */
  function NewNames(names: seq<string>, known: set<string>): seq<string>
  {
    if |names| == 0 then []
    else
      var earlier := names[..|names| - 1];
      var last := names[|names| - 1];
      if last in known || last in earlier then NewNames(earlier, known)
      else NewNames(earlier, known) + [last]
  }

  /** The names exported for a chain are exactly its names not registered before, each once. */
  lemma {:induction false} NewNamesExportedOnce(names: seq<string>, known: set<string>)
    ensures Unique(NewNames(names, known))
    ensures forall n :: n in NewNames(names, known) <==> n in names && n !in known
  {
    if |names| > 0 {
      var earlier := names[..|names| - 1];
      var last := names[|names| - 1];
      NewNamesExportedOnce(earlier, known);
      assert names == earlier + [last];
    }
  }

  /** Extending the chain by one name exports that name exactly when it is new. */
  lemma NewNamesExtend(names: seq<string>, i: nat, known: set<string>)
    requires i < |names|
    ensures Elements(names[..i + 1]) == Elements(names[..i]) + {names[i]}
    ensures NewNames(names[..i + 1], known) ==
              if names[i] in known || names[i] in names[..i] then NewNames(names[..i], known)
              else NewNames(names[..i], known) + [names[i]]
  {
    var prefix := names[..i + 1];
    assert prefix[..i] == names[..i] && prefix[i] == names[i];
    assert prefix == names[..i] + [names[i]];
  }

  /** One lookup-or-create of `name`: the registry maps `name` to `queue` afterwards, a name that
      was registered keeps its queue, a new name gets a queue with the definition's limits and is
      exported once. */
  ghost predicate LookupOrCreate(before: map<string, QueryQueue>, after: map<string, QueryQueue>,
                                 exportedBefore: seq<string>, exportedAfter: seq<string>,
                                 name: string, definition: QueueDefinition, queue: QueryQueue)
  {
    && after == before[name := queue]
    && exportedAfter == exportedBefore + (if name in before then [] else [name])
    && (name in before ==> queue == before[name])
    && (name !in before ==> queue.maxQueued == definition.maxQueued && queue.maxConcurrent == definition.maxConcurrent)
  }

  /** `queues` are the live queues in `after` of the first `|queues|` names. */
  ghost predicate LiveQueues(after: map<string, QueryQueue>, names: seq<string>, queues: seq<QueryQueue>)
    requires |queues| <= |names|
  {
    forall k :: 0 <= k < |queues| ==> names[k] in after && queues[k] == after[names[k]]
  }

  /** A queue of `queues` made for the first occurrence of a name missing from `before` carries
      the limits of that occurrence's definition. */
  ghost predicate NewQueueLimits(before: map<string, QueryQueue>, names: seq<string>,
                                 definitions: seq<QueueDefinition>, queues: seq<QueryQueue>)
    requires |queues| <= |names| == |definitions|
  {
    forall k :: 0 <= k < |queues| && names[k] !in before && names[k] !in names[..k] ==>
      queues[k].maxQueued == definitions[k].maxQueued && queues[k].maxConcurrent == definitions[k].maxConcurrent
  }

  /** After resolving the first `i` names: the registry grew from `before` to `after` by exactly
      those names, `queues` are their live queues, a queue made for a name's first new occurrence
      carries that definition's limits, and the names new to the registry were exported in order. */
  ghost predicate ResolvedUpTo(before: map<string, QueryQueue>, after: map<string, QueryQueue>,
                               exportedBefore: seq<string>, exportedAfter: seq<string>,
                               names: seq<string>, definitions: seq<QueueDefinition>, queues: seq<QueryQueue>, i: nat)
    requires i <= |names| == |definitions|
  {
    && RegistryGrows(before, after)
    && after.Keys == before.Keys + Elements(names[..i])
    && |queues| == i
    && LiveQueues(after, names, queues)
    && NewQueueLimits(before, names, definitions, queues)
    && exportedAfter == exportedBefore + NewNames(names[..i], before.Keys)
  }

  /** Looking up or inserting one more name keeps the earlier queues live and adds its own. */
  lemma LiveQueuesStep(mid: map<string, QueryQueue>, names: seq<string>, queues: seq<QueryQueue>, queue: QueryQueue)
    requires |queues| < |names|
    requires LiveQueues(mid, names, queues)
    requires names[|queues|] in mid ==> queue == mid[names[|queues|]]
    ensures LiveQueues(mid[names[|queues|] := queue], names, queues + [queue])
  {
    var after := mid[names[|queues|] := queue];
    var extended := queues + [queue];
    forall k | 0 <= k < |extended|
      ensures names[k] in after && extended[k] == after[names[k]]
    {
      if k < |queues| {
        assert extended[k] == queues[k] && names[k] in mid;
      }
    }
  }

  /** A queue created for a name's first new occurrence with that definition's limits keeps
      `NewQueueLimits`. */
  lemma NewQueueLimitsStep(before: map<string, QueryQueue>, names: seq<string>, definitions: seq<QueueDefinition>,
                           queues: seq<QueryQueue>, queue: QueryQueue)
    requires |queues| < |names| == |definitions|
    requires NewQueueLimits(before, names, definitions, queues)
    requires var i := |queues|;
             names[i] !in before && names[i] !in names[..i] ==>
               queue.maxQueued == definitions[i].maxQueued && queue.maxConcurrent == definitions[i].maxConcurrent
    ensures NewQueueLimits(before, names, definitions, queues + [queue])
  {
    var extended := queues + [queue];
    forall k | 0 <= k < |extended| && names[k] !in before && names[k] !in names[..k]
      ensures extended[k].maxQueued == definitions[k].maxQueued && extended[k].maxConcurrent == definitions[k].maxConcurrent
    {
      if k < |queues| {
        assert extended[k] == queues[k];
      }
    }
  }

  /** One more name resolved the way a single lookup-or-create does keeps `ResolvedUpTo`. */
  lemma ResolvedUpToStep(before: map<string, QueryQueue>, mid: map<string, QueryQueue>, after: map<string, QueryQueue>,
                         exportedBefore: seq<string>, exportedMid: seq<string>, exportedAfter: seq<string>,
                         names: seq<string>, definitions: seq<QueueDefinition>, queues: seq<QueryQueue>,
                         queue: QueryQueue, i: nat)
    requires i < |names| == |definitions|
    requires ResolvedUpTo(before, mid, exportedBefore, exportedMid, names, definitions, queues, i)
    requires LookupOrCreate(mid, after, exportedMid, exportedAfter, names[i], definitions[i], queue)
    ensures ResolvedUpTo(before, after, exportedBefore, exportedAfter, names, definitions, queues + [queue], i + 1)
  {
    NewNamesExtend(names, i, before.Keys);
    assert names[i] in mid <==> names[i] in before || names[i] in names[..i];
    LiveQueuesStep(mid, names, queues, queue);
    NewQueueLimitsStep(before, names, definitions, queues, queue);
  }

  // ---------------------------------------------------------------------------------------
  // The manager
  // ---------------------------------------------------------------------------------------

  class SqlQueryQueueManager {
    /** Expanded queue name to live queue. */
    var queryQueues: map<string, QueryQueue>
    const rules: seq<QueryQueueRule>
    const matches: RuleMatcher
    const expand: NameExpander
    /** The names exported for monitoring, in export order. */
    ghost var exported: seq<string>
    /** Every reserve and enqueue call made on a queue, in call order. */
    ghost var calls: seq<QueueCall>

    /** Each registered name was exported exactly once, and only registered names were. */
    ghost predicate Valid()
      reads this
    {
      Unique(exported) && forall n :: n in exported <==> n in queryQueues
    }

    constructor Init(rules: seq<QueryQueueRule>, matches: RuleMatcher, expand: NameExpander)
      ensures Valid()
      ensures this.rules == rules && this.matches == matches && this.expand == expand
      ensures queryQueues == map[] && exported == [] && calls == []
    {
      this.rules := rules;
      this.matches := matches;
      this.expand := expand;
      queryQueues := map[];
      exported := [];
      calls := [];
    }

    /** The constructor: the built-in rules without a configuration file, the file's rules with one. */
    static method Create(config: QueryManagerConfig, matches: RuleMatcher, expand: NameExpander)
      returns (r: Result<SqlQueryQueueManager, Failure>)
      ensures ConfiguredRules(config).Failure? ==> r == Failure(ConfiguredRules(config).error)
      ensures ConfiguredRules(config).Success? ==>
                r.Success? && fresh(r.value) && r.value.Valid() &&
                r.value.rules == ConfiguredRules(config).value &&
                r.value.matches == matches && r.value.expand == expand &&
                r.value.queryQueues == map[] && r.value.exported == [] && r.value.calls == []
    {
      var rules := ConfiguredRules(config);
      if rules.Failure? {
        return Failure(rules.error);
      }
      var manager := new SqlQueryQueueManager.Init(rules.value, matches, expand);
      return Success(manager);
    }

    /** The registry keys of a chain of definitions for a session. */
    function ExpandedNames(definitions: seq<QueueDefinition>, session: Session): (names: seq<string>)
      ensures |names| == |definitions|
      ensures forall i :: 0 <= i < |definitions| ==> names[i] == expand(definitions[i], session)
    {
      seq(|definitions|, i requires 0 <= i < |definitions| => expand(definitions[i], session))
    }

    /** `queues` are the live queues of `definitions` for `session`, and the registry changed only
        by adding, as new queues, the names it lacked, each exported once. */
    twostate predicate ResolvedChain(definitions: seq<QueueDefinition>, session: Session, new queues: seq<QueryQueue>)
      reads this`queryQueues, this`exported
    {
      var names := ExpandedNames(definitions, session);
      && ResolvedUpTo(old(queryQueues), queryQueues, old(exported), exported, names, definitions, queues, |definitions|)
      && (forall n :: n in queryQueues && n !in old(queryQueues) ==> fresh(queryQueues[n]))
    }

    /** `ConcurrentMap.putIfAbsent`, run without interference. */
    method PutIfAbsent(name: string, queue: QueryQueue) returns (previous: Option<QueryQueue>)
      modifies this`queryQueues
      ensures previous == if name in old(queryQueues) then Some(old(queryQueues)[name]) else None
      ensures queryQueues == if name in old(queryQueues) then old(queryQueues) else old(queryQueues)[name := queue]
    {
      if name in queryQueues {
        return Some(queryQueues[name]);
      }
      queryQueues := queryQueues[name := queue];
      return None;
    }

    /** The registry entry for one definition's expanded name; when the name is not registered, a
        new queue with the definition's limits is inserted and exported first. */
    method GetOrCreateQueue(session: Session, definition: QueueDefinition) returns (queue: QueryQueue)
      requires Valid()
      modifies this`queryQueues, this`exported
      ensures Valid()
      ensures LookupOrCreate(old(queryQueues), queryQueues, old(exported), exported, expand(definition, session), definition, queue)
      ensures expand(definition, session) !in old(queryQueues) ==> fresh(queue)
    {
      var expandedName := expand(definition, session);
      if expandedName !in queryQueues {
        var created := new QueryQueue(definition.maxQueued, definition.maxConcurrent);
        var previous := PutIfAbsent(expandedName, created);
        if previous.None? {
          exported := exported + [expandedName];
        }
      }
      queue := queryQueues[expandedName];
    }

    method GetOrCreateQueues(session: Session, definitions: seq<QueueDefinition>) returns (queues: seq<QueryQueue>)
      requires Valid()
      modifies this`queryQueues, this`exported
      ensures Valid()
      ensures ResolvedChain(definitions, session, queues)
    {
      ghost var names := ExpandedNames(definitions, session);
      queues := [];
      for i := 0 to |definitions|
        invariant Valid()
        invariant ResolvedUpTo(old(queryQueues), queryQueues, old(exported), exported, names, definitions, queues, i)
        invariant forall n :: n in queryQueues && n !in old(queryQueues) ==> fresh(queryQueues[n])
      {
        ghost var before := queryQueues;
        ghost var exportedBefore := exported;
        var queue := GetOrCreateQueue(session, definitions[i]);
        ResolvedUpToStep(old(queryQueues), before, queryQueues, old(exported), exportedBefore, exported,
                         names, definitions, queues, queue, i);
        queues := queues + [queue];
      }
    }

    /** The live queues for the first rule that matches the session. */
    method SelectQueues(session: Session) returns (r: Result<seq<QueryQueue>, Failure>)
      requires Valid()
      modifies this`queryQueues, this`exported
      ensures Valid()
      ensures SelectChain(rules, session, matches).Failure? ==>
                r == Failure(SelectChain(rules, session, matches).error) &&
                queryQueues == old(queryQueues) && exported == old(exported)
      ensures SelectChain(rules, session, matches).Success? ==>
                r.Success? && ResolvedChain(SelectChain(rules, session, matches).value, session, r.value)
    {
      var i := 0;
      while i < |rules|
        invariant 0 <= i <= |rules|
        invariant forall j :: 0 <= j < i ==> matches(rules[j], session).None?
      {
        var definitions := matches(rules[i], session);
        if definitions.Some? {
          FirstMatchWins(rules[..i], rules[i], rules[i + 1..], session, matches);
          assert rules[..i] + [rules[i]] + rules[i + 1..] == rules;
          var queues := GetOrCreateQueues(session, definitions.value);
          return Success(queues);
        }
        i := i + 1;
      }
      NoMatchIsUserError(rules, session, matches);
      return Failure(PrestoException(USER_ERROR, NO_MATCHING_RULE));
    }

    /** Reserves a slot in each queue of `queues` in order, stopping at the first refusal;
        `refusedAt` is the refusing position, or `|queues|` when every queue granted. */
    method ReserveChain(queues: seq<QueryQueue>, execution: QueryExecution) returns (granted: bool, ghost refusedAt: nat)
      modifies this`calls
      ensures refusedAt <= |queues|
      ensures granted <==> refusedAt == |queues|
      ensures refusedAt < |queues| ==>
                calls == old(calls) + Granted(queues[..refusedAt], execution) + [Reserve(queues[refusedAt], execution, false)]
      ensures refusedAt == |queues| ==> calls == old(calls) + Granted(queues, execution)
    {
      var i := 0;
      while i < |queues|
        invariant 0 <= i <= |queues|
        invariant calls == old(calls) + Granted(queues[..i], execution)
      {
        var queue := queues[i];
        var accepted := queue.Reserve(execution);
        calls := calls + [Reserve(queue, execution, accepted)];
        if !accepted {
          return false, i;
        }
        assert Granted(queues[..i + 1], execution) == Granted(queues[..i], execution) + [Reserve(queue, execution, true)];
        i := i + 1;
      }
      assert queues[..i] == queues;
      return true, i;
    }

    /** Routes the query, reserves a slot in every queue of its chain in order, stopping at the
        first refusal without releasing earlier reservations, and otherwise places the query with
        the rest of its chain in the head queue. */
    method Submit(execution: QueryExecution) returns (r: Result<bool, Failure>, ghost chain: seq<QueryQueue>, ghost refusedAt: nat)
      requires Valid()
      modifies this
      ensures Valid()
      ensures SelectChain(rules, execution.session, matches).Failure? ==>
                r == Failure(SelectChain(rules, execution.session, matches).error) &&
                queryQueues == old(queryQueues) && exported == old(exported) && calls == old(calls)
      ensures SelectChain(rules, execution.session, matches).Success? ==>
                && ResolvedChain(SelectChain(rules, execution.session, matches).value, execution.session, chain)
                && refusedAt <= |chain|
                && (refusedAt < |chain| ==>
                      r == Success(false) &&
                      calls == old(calls) + Granted(chain[..refusedAt], execution) + [Reserve(chain[refusedAt], execution, false)])
                && (refusedAt < |chain| ==>
                      |calls| > |old(calls)| && forall call :: call in calls[|old(calls)|..] ==> call.Reserve?)
                && (refusedAt == |chain| == 0 ==>
                      r == Failure(IndexOutOfBoundsException) && calls == old(calls))
                && (refusedAt == |chain| > 0 ==>
                      r.Success? &&
                      calls == old(calls) + Granted(chain, execution) +
                               [Enqueue(chain[0], QueuedExecution(execution, chain[1..]), r.value)])
    {
      var selected := SelectQueues(execution.session);
      if selected.Failure? {
        return Failure(selected.error), [], 0;
      }
      var queues := selected.value;
      chain := queues;
      var granted, reserved := ReserveChain(queues, execution);
      if !granted {
        return Success(false), chain, reserved;
      }
      if |queues| == 0 {
        return Failure(IndexOutOfBoundsException), chain, 0;
      }
      var entry := QueuedExecution(execution, queues[1..]);
      var accepted := queues[0].Enqueue(entry);
      calls := calls + [Enqueue(queues[0], entry, accepted)];
      return Success(accepted), chain, |queues|;
    }
  }
}
