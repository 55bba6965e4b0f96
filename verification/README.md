# Verification of snarkOPS

This project models the parts of snarkOPS that decide something hard and proves
what they promise: which checkpoints are kept, how filters and policies are read
and written, that a ledger can be rewound in any order, that no agent is claimed
twice or lost, that a restart loses no transaction, and that the binary format
and the store under it give back what was put in.

`dafny verify dfyconfig.toml` checks all of it with Dafny 4.11.

- **Checkpoint retention** (`Retention`, `RetentionProofs`, `RetentionOldest`,
  `RetentionPromise`, `Manager`): the walk over rules and times as the program's
  nested loops and as a recursive function, what it keeps and rejects exactly,
  and the manager that writes and culls at every poll.
- **Texts** (`Text`, `PolicyText`, `Nodes`): policies, height requests, node keys
  and targets, printed and parsed.
- **Event filters** (`Filter`, `FilterMeaning`, `FilterText`, `FilterParser`,
  `FilterProofs`, `FilterSource`, `FilterGrammar`, `FilterErrors`): matching,
  the flattening operators, the printer, the lexer, the recursive descent
  parser, all the ways to write a filter, and the errors.
- **Ledger rewind** (`Ledger`, `LedgerRun`, `LedgerStores`, `LedgerPlan`,
  `LedgerSchedule`, `LedgerChain`, `LedgerChainProofs`, `LedgerRewind`,
  `LedgerBuild`, `LedgerErrors`): the removal functions over one key-value map,
  the same as lists of work that can be interleaved, how they fail, and the
  entries that belong to a block.
- **Agents** (`Claims`, `Pairing`, `PairingProofs`, `PairingTurns`,
  `Environment`, `EnvironmentProofs`, `EnvironmentNodes`): claims on a reference
  count, pairing in parallel, and the update of an environment.
- **Cannon** (`Cannon`, `CannonProofs`, `CannonHistory`, `CannonIndices`,
  `CannonInstance`): the tracked transactions, their mirror in the store, the
  life of each, their indices, restarts and environments that are applied again.
- **Format and store** (`Bytes`, `Utf8`, `Format`, `FormatProofs`,
  `FormatReading`, `FormatStreams`, `NodeStateFormat`, `PrefixStore`): packed
  numbers, composites, headers of headers, versions, what is read from any
  bytes, and scans by prefix.
- **Cache and imports** (`NetworkCache`, `CacheHistory`, `Imports`).

Code that updates things in place is a class or a method with loops, tied by its
contract to a function of the old state; the properties are lemmas about that
function. Every lemma carries `{:induction false}`: proofs by induction are
written out, so none rests on an induction hypothesis the verifier adds itself.

Time is an integer number of nanoseconds and always a parameter. Ids, hashes and
bodies that no code looks into are numbers. Where a promise does not hold of the
code, the code is modelled as it is, the exact condition under which the promise
holds is proved where there is one, and a lemma gives a case in which it fails:

- the retention walk keeps the oldest checkpoint although it is outside the
  longest duration, exactly if the newest is outside too or the oldest is far
  enough from what is kept within the duration of the rule that governs;
- a policy of several rules keeps what each of them promises for its duration
  exactly if none but the first wants more than one checkpoint in it;
- `^` on filters is not exclusive disjunction once flattened sides match more
  than once;
- the search for rounds never removes round 0 unless the height starts there;
- a claim is exclusive if and only if the agent keeps its own reference;
- pairing can turn nodes away although agents are free: a task that is left alone
  claims an agent exactly if a suitable one is free, but two that run at the same
  time can miss all of them;
- a target id of several stars is read back as all ids;
- an agent is lost if its node is listed as external too, and the error for 0
  replicas is never raised;
- a transaction that comes in again while an execution or a broadcast of an
  earlier tracker is under way can be left without what its status calls for;
- an execution that takes too long is sent again but never taken, and one that is
  interrupted because its environment is applied again is not demoted;
- the attempts of a transaction that was given up can be counted and are still
  there when it comes in again;
- an index is given out twice exactly if a transaction comes in right after its
  cannon is loaded and the one with the last index is still tracked;
- a transaction in two cached blocks is lost with the second of them.

## Model

| member | source | states |
|---|---|---|
| `Retention.LengthsAgree` | crates/checkpoint/src/retention.rs:229-253 | the length of a span as a duration and its start as a timestamp are the same number of seconds for every span |
| `Retention.NewestFirstKeepsTimes` | crates/checkpoint/src/retention.rs:89-95 | ordering the times loses none and adds none |
| `Retention.AdvanceMeans` | crates/checkpoint/src/retention.rs:123-154 | the rule cursor passes over rules with the duration of the one before or none; it moves to the first other rule if the current or the last kept time is within its duration, promoting the current time exactly if that is, and settles before it otherwise |
| `Retention.SkipRules` | crates/checkpoint/src/retention.rs:123-154 | the inner loop over the rules ends where the recursive rule search ends, with the same choice of promoting the current time or not |
| `Retention.RejectWithTime` | crates/checkpoint/src/retention.rs:61-187 | the nested loops end for every policy and every list of times, and return what the recursive walk over the ordered times rejects |
| `RetentionProofs.RejectedIsOrderedSublist` | crates/checkpoint/src/retention.rs:86-186 | what is rejected is a strictly newest-to-oldest sublist of the times, and at least one time is kept |
| `RetentionProofs.OneRuleRejectsNothing` | crates/checkpoint/src/retention.rs:101-184 | a policy of one rule rejects nothing exactly if all times but the oldest are within its duration and all neighbours are at least its keep apart, exactly one keep apart included |
| `RetentionPromise.OneRuleJustifies` | crates/checkpoint/src/retention.rs:61-187 | every rejected time is older than the duration of the one rule that governs the cull, or closer than that rule's keep to a newer time that is kept |
| `RetentionPromise.HonouredExactly` | crates/checkpoint/src/retention.rs:5-28 | a policy ordered by duration keeps at every moment and for all times what each of its rules promises for its duration, exactly if every rule but the first has a limited duration and a keep at least as long |
| `RetentionPromise.SecondRuleIsNotHonoured` | crates/checkpoint/src/retention.rs:101-116 | with 4h:1h,2D:12h a time 16 hours old is rejected though the second rule covers it and the nearest newer one kept is 15 hours away |
| `RetentionProofs.CullingIsIdempotent` | crates/checkpoint/src/retention.rs:61-187 | for every policy, moment and set of distinct times, rejecting again among the survivors rejects nothing |
| `RetentionProofs.OneCullBound` | crates/checkpoint/src/retention.rs:101-184 | with R rules of limited spans and times not after now, at most R-1 neighbouring survivors are closer than the smallest keep, all but the oldest are within the longest duration, and there are at most longest duration / smallest keep + R + 1 of them |
| `RetentionProofs.OneRuleGoverns` | crates/checkpoint/src/retention.rs:61-187 | the rule cursor settles once: after at most one time kept without condition for each rule passed, what survives is what the one rule it settles on keeps |
| `RetentionOldest.OldKeepsOldest` | crates/checkpoint/src/retention.rs:101-116 | once the last kept time is outside the duration of the current rule, the oldest time and no other is kept |
| `RetentionOldest.LastSurvivorIsTooOld` | crates/checkpoint/src/retention.rs:84-186 | for one rule the last survivor is outside its duration exactly if the oldest time is and is far enough from the last survivor of the times within the duration |
| `RetentionOldest.SurvivorsExactly` | crates/checkpoint/src/retention.rs:61-187 | what a policy keeps: the oldest time alone if the newest is too old for the longest rule, otherwise what is kept within the duration of the governing rule and the oldest time if that is too old and far enough |
| `RetentionOldest.OldestIsKeptExactly` | crates/checkpoint/src/retention.rs:84-186 | a time outside the longest duration survives exactly if the oldest time is outside and either the newest is too or the oldest is far enough, for the governing rule, from what is kept within its duration |
| `RetentionOldest.OldestIsKept` | crates/checkpoint/src/retention.rs:84-84 | with 4h:1h a time five hours old is kept beside one of now |
| `Manager.CheckpointManager.Ready` | crates/checkpoint/src/manager.rs:148-156 | a new checkpoint is due if there is none, or the policy says so of the latest one |
| `Manager.CheckpointManager.CullTimestamp` | crates/checkpoint/src/manager.rs:199-210 | the checkpoints left are those the policy does not reject at that moment |
| `Manager.CheckpointManager.Poll` | crates/checkpoint/src/manager.rs:130-145 | a poll writes, inserts and culls exactly if a checkpoint is due, and otherwise changes nothing; a failed write leaves the map as it was |
| `Manager.CullAtNewest` | crates/checkpoint/src/manager.rs:199-210 | culling at the time of the newest checkpoint keeps that checkpoint, keeps the others spaced, and leaves at most longest duration over first keep plus two |
| `Manager.PollKeepsBound` | crates/checkpoint/src/manager.rs:130-210 | one poll keeps all timestamps at least the first keep apart and, if it culls, bounds their number |
| `Manager.WholeRunBound` | crates/checkpoint/src/manager.rs:130-210 | from an empty manager, every sequence of polls keeps neighbouring timestamps at least the first keep apart, never deletes the checkpoint just written, and bounds the number stored after each culling poll |
| `Manager.PollKeepsFresh` | crates/checkpoint/src/manager.rs:130-156 | after a poll that read a block and could write, the newest checkpoint is less than the first keep older than the block, or not older at all if every one is kept |
| `Manager.RunStaysFresh` | crates/checkpoint/src/manager.rs:130-210 | the same after every such poll of every run, so no checkpoint stays due |
| `Manager.NoRulesOneCheckpoint` | crates/checkpoint/src/retention.rs:44-47 | with no rules a run makes exactly one checkpoint, at the first block it can write |
| `PolicyText.SpanRoundTrip` | crates/checkpoint/src/retention.rs:303-342 | parsing the text of a span gives the span back |
| `PolicyText.TextGivesLength` | crates/checkpoint/src/retention.rs:211-240 | a text is read as a limited span exactly if it is a number from 1 to 255 and a unit letter, and the span lasts that many minutes, hours, days, weeks, months of 30 days or years of 365 |
| `PolicyText.SpanFails` | crates/checkpoint/src/retention.rs:306-327 | a text that is no span lacks a unit, has more than the letter for unlimited, has no number from 1 to 255, or has an unknown unit, in this order |
| `PolicyText.RuleRoundTrip` | crates/checkpoint/src/retention.rs:285-301 | parsing the text of a rule gives the rule back |
| `PolicyText.RuleMeans` | crates/checkpoint/src/retention.rs:285-295 | a text is a rule exactly if it is two spans with a colon between them |
| `PolicyText.RuleFails` | crates/checkpoint/src/retention.rs:288-293 | a text that is no rule lacks a colon, or what is before the first one is no span, or what is after it, in this order |
| `PolicyText.PolicyMeans` | crates/checkpoint/src/retention.rs:256-271 | a text is a policy exactly if its pieces between commas, the empty ones left out, are its rules in order |
| `PolicyText.PolicyFails` | crates/checkpoint/src/retention.rs:260-268 | an error names the first piece that is neither empty nor a rule, counting the empty ones too |
| `Text.UnsignedMeans` | crates/checkpoint/src/retention.rs:314-316 | a text is read as a number exactly if it is the decimal form of a number in range, with zeros and a plus sign before it or not |
| `PolicyText.PolicyRoundTrip` | crates/checkpoint/src/retention.rs:256-283 | parsing the text of a policy of any number of rules, none included, gives the policy back |
| `PolicyText.HeightFormsDisjoint` | crates/common/src/state/height_request.rs:7-34 | no text can be read as two of the three forms of a height request |
| `PolicyText.HeightRoundTrip` | crates/common/src/state/height_request.rs:7-34 | parsing the text of a height request gives the request back |
| `PolicyText.HeightMeans` | crates/common/src/state/height_request.rs:7-34 | a text is read as the top, as a height of 32 bits or as a span exactly if it is one of them |
| `Nodes.KeyRoundTrip` | crates/common/src/state/node_key.rs:16-64 | the text of a node key parses back to the key exactly if its id and namespace fit the pattern |
| `Nodes.TargetRoundTrip` | crates/common/src/node_targets.rs:178-246 | the text of a node target parses back to the target exactly if its parts are ones the parser produces and its id is not a pattern of one star |
| `Nodes.CollapseMatches` | crates/common/src/node_targets.rs:192-198 | the pattern with repeated stars collapsed matches what the pattern as written matches |
| `Filter.AndIsConjunction` | crates/common/src/events/filter_ops.rs:3-25 | `a & b` matches an event exactly if both do, for all filters |
| `Filter.OrIsDisjunction` | crates/common/src/events/filter_ops.rs:27-49 | `a \| b` matches an event exactly if one of them does, for all filters |
| `Filter.XorIsExclusive` | crates/common/src/events/filter_ops.rs:51-73 | `a ^ b` is exclusive disjunction exactly unless one side is unfiltered or one side matches once and the other, flattened, more than once |
| `Filter.XorIsNotAlwaysExclusive` | crates/common/src/events/filter_ops.rs:51-73 | an event on which flattening makes `(a ^ b) ^ c` differ from exclusive disjunction |
| `Filter.XorMatchesExactlyOne` | crates/common/src/events/filter_ops.rs:51-73 | any bracketing of `^` over filters that are neither OneOf nor Unfiltered matches exactly if one of the filters does |
| `FilterMeaning.IdsMatch` | crates/common/src/events/filter.rs:58-67 | the filters for an agent, an environment and a cannon each compare their own part of the event |
| `FilterMeaning.OthersMatch` | crates/common/src/events/filter.rs:62-70 | so do those for a transaction, a node key and a kind |
| `FilterMeaning.NothingMatches` | crates/common/src/events/filter.rs:58-75 | an event that lacks a part matches no filter for that part, node targets included, whatever else it has |
| `FilterMeaning.HasMeansSome` | crates/common/src/events/filter.rs:58-61 | an event has an agent or an environment exactly if the filter for some agent or environment matches it |
| `FilterMeaning.HasOthersMeansSome` | crates/common/src/events/filter.rs:62-70 | the same for transactions, cannons and node keys |
| `FilterMeaning.FiltersTellApart` | crates/common/src/events/filter.rs:51-75 | two events are the same, as far as filters look, exactly if the filters for one value match both or neither |
| `FilterMeaning.ListsMatch` | crates/common/src/events/filter.rs:53-57 | all, any and exactly one of a list, one filter at a time, the empty lists included |
| `FilterMeaning.OneMatches` | crates/common/src/node_targets.rs:417-424 | a star matches any text, a question mark any one character, and another character itself |
| `FilterMeaning.AlphanumericIs` | crates/common/src/state/mod.rs:30-41 | letters and digits of keys, targets and ids by their codes |
| `FilterMeaning.PatternsCompose` | crates/common/src/node_targets.rs:417-424 | two patterns one after the other match exactly the texts that have two parts which they match |
| `FilterMeaning.PlainPatterns` | crates/common/src/node_targets.rs:417-424 | a pattern without wildcards matches itself only, and with a star after it what begins with it |
| `FilterMeaning.TargetOfKey` | crates/common/src/node_targets.rs:417-433 | the target made of the parts of a key matches that key and no other, and each part can be widened on its own |
| `FilterMeaning.LocalMatches` | crates/common/src/node_targets.rs:426-432 | a target for the local namespace matches keys without a namespace and keys that say local, and no others, whichever way it is put |
| `FilterMeaning.TargetsMatchSome` | crates/common/src/node_targets.rs:448-454 | a list of targets matches the keys that one of them matches |
| `FilterText.KindRoundTrip` | crates/common/src/events/models.rs:157-213 | the name of an event kind is read back as that kind |
| `FilterText.ListsJoin` | crates/common/src/events/filter.rs:79-86 | the text of two lists one after the other is their texts joined by a comma and a space, for lists of any length |
| `FilterProofs.LexFilter` | crates/common/src/events/filter_parse.rs:74-115 | the tokens of a printed filter are those of its structure, at every nesting depth |
| `FilterProofs.FilterRoundTrip` | crates/common/src/events/filter_parse.rs:74-312 | parsing the text of a filter gives the filter back exactly if its leaves are canonical and its targets are in the form the parser builds |
| `FilterProofs.ParseIsStable` | crates/common/src/events/filter_parse.rs:204-312 | printing what a text parses to and parsing again gives a filter that matches the same events, the same filter exactly if no target has a pattern of stars only, and a filter that is stable from then on |
| `FilterProofs.StarsReadAsAll` | crates/common/src/node_targets.rs:189-198 | a target whose id is two stars is kept as a pattern of one, which is printed and read back as all ids |
| `FilterProofs.EmptyIdIsNotReadBack` | crates/common/src/events/filter_parse.rs:204-245 | the filter for the empty transaction id is not read back from its text |
| `FilterSource.SourceParses` | crates/common/src/events/filter_parse.rs:74-312 | however a filter is written, with whitespace where it is allowed, bare event kinds, stars for any, explicit local namespaces and a last comma, its text is read as the filter it means, at every length and depth |
| `FilterSource.BareKindParses` | crates/common/src/events/filter_parse.rs:239-243 | a bare event kind is read as the filter for that kind |
| `FilterGrammar.ParsedHasSource` | crates/common/src/events/filter_parse.rs:204-312 | every text that is read as a filter is such a writing of it |
| `FilterGrammar.ParsesExactly` | crates/common/src/events/filter_parse.rs:204-312 | a text is read as a filter if and only if it is one of the ways to write it |
| `FilterGrammar.TrimMeans` | crates/common/src/events/filter_parse.rs:139-160 | trimming takes the whitespace off both ends of a text and nothing else |
| `FilterGrammar.WhitespaceIs` | crates/common/src/events/filter_parse.rs:74-115 | which six characters the lexer takes for whitespace |
| `FilterGrammar.IdMeans` | crates/common/src/state/mod.rs:38-41 | a text is an id exactly if it is a letter or digit followed by letters, digits, dashes, underscores and dots, 64 characters at most |
| `FilterErrors.NoWord` | crates/common/src/events/filter_parse.rs:204-212 | where a filter should be and no word is, the error names what stands there |
| `FilterErrors.UnknownWord` | crates/common/src/events/filter_parse.rs:239-243 | a word that is neither a filter nor an event kind is an invalid filter of that name, whatever follows |
| `FilterErrors.NoArguments` | crates/common/src/events/filter_parse.rs:204-245 | a filter that takes arguments and has no opening parenthesis is an error that names what stands there |
| `FilterErrors.BadValue` | crates/common/src/events/filter_parse.rs:117-160 | a value that does not fit the filter, or none, is an error that names what was expected |
| `FilterErrors.OpenValue` | crates/common/src/events/filter_parse.rs:204-245 | a value that is not closed is an error that names what stands in place of the parenthesis |
| `FilterErrors.OpenList` | crates/common/src/events/filter_parse.rs:247-285 | a list of any filters that ends after its parenthesis, an element or a comma is an error that names what was expected |
| `FilterErrors.TextAfterEnd` | crates/common/src/events/filter_parse.rs:303-312 | anything but whitespace after a filter, however it is written, is an error |
| `FilterParser.Lexer.Next` | crates/common/src/events/filter_parse.rs:74-115 | the lexer returns the tokens of the text one by one and consumes at least one character for each |
| `FilterParser.Parser.ExpectFilter` | crates/common/src/events/filter_parse.rs:204-245 | the recursive descent ends on every token stream and gives what the grammar gives, result or error |
| `FilterParser.Parser.Filters` | crates/common/src/events/filter_parse.rs:247-285 | the list loop gives what the grammar of lists gives, trailing commas and errors included |
| `FilterParser.Parser.TrimWhitespace` | crates/common/src/events/filter_parse.rs:287-291 | leading whitespace tokens are dropped and nothing else |
| `FilterParser.FromStr` | crates/common/src/events/filter_parse.rs:303-312 | parsing a text gives what the grammar gives for all of it, trailing tokens being an error |
| `LedgerStores.Stores.FastInputRemove` | crates/checkpoint/src/ledger.rs:380-412 | removes the inputs of a transition: every entry that the list of work for them names, in that order, and never fails |
| `LedgerStores.Stores.FastOutputRemove` | crates/checkpoint/src/ledger.rs:414-449 | the same for outputs, with the nonce of records that have one |
| `LedgerStores.Stores.FastTransitionRemove` | crates/checkpoint/src/ledger.rs:311-343 | the same for a transition; one without a public key or commitment is left alone |
| `LedgerStores.Stores.FastFeeRemove` | crates/checkpoint/src/ledger.rs:290-309 | the same for a fee, failing if there is none |
| `LedgerStores.Stores.FastExecutionRemove` | crates/checkpoint/src/ledger.rs:256-288 | the same for an execution, its transitions and its fee |
| `LedgerStores.Stores.FastDeploymentRemove` | crates/checkpoint/src/ledger.rs:207-254 | the same for a deployment, its functions and its fee |
| `LedgerStores.Stores.FastTxRemove` | crates/checkpoint/src/ledger.rs:184-205 | the same for a transaction of any of the three kinds |
| `LedgerStores.Stores.FastBlockRemove` | crates/checkpoint/src/ledger.rs:47-182 | the same for the content of a block; nothing is deleted if one of its parts, a confirmed transaction among them, cannot be read |
| `LedgerStores.Stores.FastCommitteeRemove` | crates/checkpoint/src/ledger.rs:345-378 | the two searches for rounds end, and the rounds between them and the committee are removed |
| `LedgerStores.Stores.Remove` | crates/checkpoint/src/ledger.rs:39-42 | removes the block of a height, then its committee |
| `LedgerRun.RunOneExpands` | crates/checkpoint/src/ledger.rs:47-450 | work that is not a deletion does what the work it leaves does, and fails with the same error |
| `LedgerRun.ExpandRanks` | crates/checkpoint/src/ledger.rs:47-450 | the work left by work of one rank has a lower rank, and a search for rounds leaves a search with a smaller range, so every removal ends |
| `LedgerPlan.ExpandLocal` | crates/checkpoint/src/ledger.rs:47-450 | a removal function does the same in a later store as long as the entries it reads are still there |
| `LedgerPlan.RunFollowsPlan` | crates/checkpoint/src/ledger.rs:39-450 | run alone on a store that still has what is planned, a removal never fails and deletes exactly the planned entries |
| `LedgerSchedule.StepFollowsPlans` | crates/checkpoint/src/ledger.rs:44-45 | one turn of one removal among others never fails, takes it one step further, and leaves the others where they were |
| `LedgerSchedule.ScheduleFollowsPlans` | crates/checkpoint/src/ledger.rs:44-45 | the same for every schedule: each removal has as many steps left as turns are missing |
| `LedgerChainProofs.DeletesTransition` | crates/checkpoint/src/ledger.rs:311-343 | the removal of a stored transition deletes its own entries, those of its inputs and outputs, and no others |
| `LedgerChainProofs.DeletesTx` | crates/checkpoint/src/ledger.rs:184-288 | the removal of a stored transaction deletes its own entries and no others |
| `LedgerChainProofs.DeletesContent` | crates/checkpoint/src/ledger.rs:47-182 | the removal of a stored block deletes the entries of its content and no others |
| `LedgerRewind.RoundSearchIsExact` | crates/checkpoint/src/ledger.rs:345-378 | for rounds around the starting round the search removes exactly those of the height, unless round 0 is one of them and not the start, and then it does not |
| `LedgerRewind.RoundZeroIsLeft` | crates/checkpoint/src/ledger.rs:354-361 | a height whose round 0 stays behind |
| `LedgerRewind.RemoveNext` | crates/checkpoint/src/ledger.rs:39-42 | removing one more height of a chain never fails and deletes the entries of that height only |
| `LedgerRewind.Rewind` | crates/checkpoint/src/checkpoint.rs:97-176 | after a failed check nothing is changed; otherwise the heights above the checkpoint are removed in the given order, and the first failure is returned |
| `LedgerRewind.AnyOrderRewinds` | crates/checkpoint/src/checkpoint.rs:118-121 | for a store that holds a chain of blocks, removing the heights above the checkpoint in any order never fails and always leaves the store without the entries of those heights |
| `LedgerRewind.AnyInterleavingRewinds` | crates/checkpoint/src/checkpoint.rs:116-121 | the same for the removals run in parallel, whatever the interleaving: none fails, each is done once it has had its turns and not before, and the store is the same |
| `LedgerRewind.RewoundKeepsOthers` | crates/checkpoint/src/checkpoint.rs:118-121 | no entry of a height that is not removed is lost or changed |
| `LedgerRewind.RewoundIsRestriction` | crates/checkpoint/src/checkpoint.rs:118-121 | if every entry belongs to a block, what is left are exactly the entries of the blocks not removed |
| `LedgerErrors.WorkFails` | crates/checkpoint/src/ledger.rs:47-450 | a removal function fails exactly if an entry it reads is missing, and reports the first of them in the order in which it reads |
| `LedgerBuild.ChainsExist` | crates/checkpoint/src/ledger.rs:47-450 | for every list of blocks whose entries are apart there is a store that holds exactly them, certificates, fees, rejected transactions, records with nonces and all, so the theorems on rewinding speak of all such blocks |
| `Claims.StepKeepsCount` | crates/controlplane/src/env/set.rs:76-88 | the count is the number of references in every state |
| `Claims.AtMostOneHolder` | crates/controlplane/src/env/set.rs:76-97 | however many threads compete in whatever order, at most one holds a claim on an agent while the agent's own reference is there |
| `Claims.ExclusiveExactlyIfOwned` | crates/controlplane/src/env/set.rs:76-97 | a claim that is held stays the only one, whatever the threads do from then on, if and only if the agent has its own reference |
| `Claims.OwnerCanBeDropped` | crates/controlplane/src/server/agent_ws.rs:188-209 | a cell that is held but not owned is reached by replacing the pool entry of an agent after a claim on it |
| `Claims.UndisturbedClaimSucceeds` | crates/controlplane/src/env/set.rs:76-88 | a thread that is not disturbed claims a free agent |
| `Claims.HeldIsLeftAlone` | crates/controlplane/src/env/set.rs:76-83 | while one thread holds the claim and the others are idle, no turns of any number of threads change anything: no reference is even taken |
| `Pairing.MaskMeans` | crates/controlplane/src/state/agent_flags.rs:91-115 | a node's mask is part of an agent's mask exactly if the agent runs that type of node, has a key of its own if asked, and has all labels |
| `Pairing.Find` | crates/controlplane/src/env/set.rs:206-215 | the agent found for an id is the last entry with that id, and there is none only if no agent has it |
| `PairingProofs.StepKeepsSound` | crates/controlplane/src/env/set.rs:210-251 | every step of every task keeps: no two tasks hold the same agent, and each task is at an agent that suits its node |
| `PairingProofs.PairingIsSound` | crates/controlplane/src/env/set.rs:168-259 | under every schedule an Ok result gives each node one suitable agent and no agent twice, with one reference each, and an Err result leaves every count at the references of others |
| `PairingProofs.PairingGoesOn` | crates/controlplane/src/env/set.rs:210-251 | some task can always go on and each of its turns brings it closer to its end |
| `PairingProofs.NamedAgentsGoFirst` | crates/controlplane/src/env/set.rs:206-251 | under every schedule the nodes that name an agent are done before any that asks for labels begins |
| `PairingProofs.PairingCanFailNeedlessly` | crates/controlplane/src/env/set.rs:236-251 | however many agents are free and suitable, two nodes that ask at the same time can both be turned away |
| `PairingTurns.LoneMaskTask` | crates/controlplane/src/env/set.rs:236-251 | left alone a task for any agent ends, and has claimed one exactly if one of those it still looks at has the mask and a count of one, and then the first of them; nothing else has changed |
| `PairingTurns.LoneIdTask` | crates/controlplane/src/env/set.rs:210-234 | left alone a task for one agent ends, and has claimed it exactly if it is there, has the type bit and a count of one; otherwise the error says which is missing |
| `PairingTurns.OneByOneSucceeds` | crates/controlplane/src/env/set.rs:168-259 | tasks that run one after the other give Ok if every node that wants a particular agent can have one of its own and every other node has as many free agents with its mask as there are nodes |
| `PairingTurns.FairSchedulesEnd` | crates/controlplane/src/env/set.rs:210-251 | every schedule that gives each task a turn again and again ends all tasks within a bound, whatever strangers do |
| `PairingTurns.OwnAgentsSuffice` | crates/controlplane/src/env/set.rs:168-259 | every such schedule gives Ok if each node has a free agent that suits it and no other node, and strangers leave these agents alone |
| `EnvironmentNodes.ReplicaKeyMeans` | crates/controlplane/src/env/mod.rs:195-207 | a node with one replica keeps its key; a replica of several has its number added to the id, after a dash if the id is not empty |
| `EnvironmentNodes.ReplicaMeans` | crates/controlplane/src/env/mod.rs:210-217 | a replica has no replicas of its own, takes its number as the index of a key that has none, and is otherwise its node |
| `EnvironmentNodes.ReplicasAreCounted` | crates/controlplane/src/env/mod.rs:191-196 | a node adds as many nodes as it has replicas, one if it does not say, and at most ten thousand |
| `EnvironmentProofs.ReplicaKeysDiffer` | crates/controlplane/src/env/mod.rs:188-204 | replicas of one node have different keys |
| `EnvironmentProofs.ReplicaAt` | crates/controlplane/src/env/mod.rs:188-216 | the replicas of a node are numbered from 0 and each has its key and its index |
| `EnvironmentProofs.ZeroReplicasAreSkipped` | crates/controlplane/src/env/mod.rs:188-195 | a document with a node of 0 replicas at any place does what it does without that node; the error the program has for it is never raised |
| `Environment.FlattenNodes` | crates/controlplane/src/env/mod.rs:188-231 | the loop over nodes and replicas tells new nodes from old and stops at the first new key that comes twice |
| `Environment.AddExternals` | crates/controlplane/src/env/mod.rs:314-324 | external nodes are added unless one has the key of a new node |
| `Environment.NewPeers` | crates/controlplane/src/env/mod.rs:277-327 | the one-to-one map of new peers: the pairs, then the external nodes |
| `Environment.ApplyNodes` | crates/controlplane/src/env/mod.rs:175-338 | the arm for nodes gives the new map of peers, the new states and the agents for the inventory, or the first error |
| `EnvironmentProofs.AgentsApplied` | crates/controlplane/src/env/mod.rs:251-338 | an agent is in the new map exactly if it was just claimed or its node stays, and goes to the inventory exactly if its node goes and it was not claimed again |
| `EnvironmentProofs.NoAgentTwice` | crates/controlplane/src/env/mod.rs:251-338 | the new map is one-to-one and no agent is both in it and in the inventory |
| `EnvironmentProofs.AgentsConserved` | crates/controlplane/src/env/mod.rs:175-338 | previous and newly claimed agents are exactly those in the new map and those for the inventory, if and only if no node that keeps its agent is listed as external too |
| `EnvironmentProofs.ShadowedAgentIsLost` | crates/controlplane/src/env/mod.rs:314-336 | an agent that is lost that way |
| `EnvironmentProofs.MapsKeepAgreeing` | crates/controlplane/src/env/mod.rs:215-338 | peers and states keep the same nodes of the same kinds exactly if no external node becomes internal and none has the key of a node that keeps its agent |
| `EnvironmentProofs.AppliedUnderEverySchedule` | crates/controlplane/src/env/mod.rs:175-338 | with the result of pairing under any schedule a document is applied exactly if no new key comes twice, pairing gives Ok and no external node has the key of a new one; then no agent has two nodes or is also sent to the inventory, and all agents are kept exactly if no node that keeps its agent is listed as external too |
| `EnvironmentNodes.NewNodesAreServed` | crates/controlplane/src/env/mod.rs:175-338 | whenever a document is applied, under every schedule of the pairing, each replica of each of its nodes that is new has as its peer the agent the node names, or one that has the node's labels and its own key if asked for, which can run nodes of that type either way, and the state is the node |
| `EnvironmentNodes.KnownNodesStay` | crates/controlplane/src/env/mod.rs:219-225 | a node the environment has, if no external node takes its key, keeps its agent and gets the settings of the last place the document lists it |
| `CannonProofs.StepKeepsSound` | crates/controlplane/src/cannon/context.rs:88-383 | a step keeps the store equal to what is tracked and every transaction able to proceed exactly if it is harmless: it brings back no transaction without what an execution or broadcast under way will need, and drops no stored data of a tracked one |
| `CannonProofs.SoundExactlyIfHarmless` | crates/controlplane/src/cannon/context.rs:88-383 | from a sound state all states of a run are sound if and only if all its steps are harmless |
| `CannonProofs.RestartLosesNothing` | crates/controlplane/src/cannon/mod.rs:138-235 | after every run of harmless steps a restart brings back every tracked transaction with index, authorization and body, an interrupted execution as authorized, each ready to be executed or broadcast |
| `CannonProofs.RebroadcastCanStrand` | crates/controlplane/src/cannon/mod.rs:445-466 | a transaction that comes in again while an agent works on it can end up authorized without an authorization |
| `CannonProofs.ExecutionCanOutliveTracker` | crates/controlplane/src/state/transactions.rs:86-94 | the state from which that happens is reached by harmless steps: a transaction is given up while an agent works on it |
| `CannonProofs.BroadcastCanOutliveTracker` | crates/controlplane/src/state/transactions.rs:86-94 | the same for a broadcast: its transaction is given up while it is on its way |
| `CannonProofs.QueuedRebroadcastCanStrand` | crates/controlplane/src/cannon/source.rs:179-199 | a transaction that comes in again while it waits for an agent is executed without an authorization |
| `CannonProofs.QueueCanOutliveTracker` | crates/controlplane/src/state/transactions.rs:86-94 | the state from which that happens is reached by harmless steps: a transaction is given up while it waits |
| `CannonProofs.ReauthorizeCanStrand` | crates/controlplane/src/cannon/mod.rs:504-530 | an authorization that comes in again while its transaction is being broadcast can end up broadcast without a body |
| `CannonProofs.KnownTransactionIsLost` | crates/controlplane/src/cannon/mod.rs:406-420 | a tracked transaction found in a cached block keeps its tracker but is lost by a restart |
| `CannonProofs.ExecutingStays` | crates/controlplane/src/cannon/context.rs:94-118 | a step leaves an execution an execution exactly unless it completes, fails, comes in as a transaction, is given up, a broadcast still under way arrives, or the program restarts |
| `CannonProofs.ExpiredExecutionIsNotRetried` | crates/controlplane/src/state/transactions.rs:150-165 | in every run in which none of these happens an execution, however often it is sent to be executed again, stays one and is not queued again |
| `CannonProofs.ReappliedExecutionIsStuck` | crates/controlplane/src/env/mod.rs:777-822 | after its environment is applied again an execution keeps its tracker unchanged in every run until it comes in again, is given up, or the program restarts |
| `CannonHistory.RunIsLives` | crates/controlplane/src/cannon/context.rs:60-380 | every harmless run of a cannon, reloads included, is the lives of its transactions side by side: what is known of each, its attempts and what is under way follow from the events about it alone, and a reload would read the same from the store |
| `CannonHistory.SentIsRecorded` | crates/controlplane/src/cannon/context.rs:276-298 | a broadcast is recorded with the height and the time, in memory and in the store, and counted as an attempt, and nothing is changed for other transactions |
| `CannonHistory.BeginIsRecorded` | crates/controlplane/src/cannon/source.rs:185-200 | the start of an execution is recorded with its time, in memory and in the store, and counted |
| `CannonHistory.CompleteIsRecorded` | crates/controlplane/src/cannon/source.rs:215-262 | an executed transaction is kept with its body, to be sent, and its attempts start anew |
| `CannonHistory.BroadcastIsLastSent` | crates/controlplane/src/cannon/context.rs:276-298 | in every harmless run, reloads included, the height and time of a broadcast transaction, in memory and in the store, are those of the last time a node took it |
| `CannonHistory.CountsTrackedExactly` | crates/controlplane/src/cannon/tracker.rs:34-39 | attempts are counted for tracked transactions only, exactly unless an execution starts or a node takes a transaction after it was given up |
| `CannonHistory.CountOutlivesTracker` | crates/controlplane/src/cannon/tracker.rs:34-39 | an authorization given up while it waits and coming in again has been tried once before anything is tried |
| `CannonIndices.IndicesDiffer` | crates/controlplane/src/cannon/mod.rs:121-135 | in every run in which the cannon is not loaded again the tracked transactions have different indices, all below the next |
| `CannonIndices.DistinctExactlyWithoutReuse` | crates/controlplane/src/cannon/mod.rs:121-160 | in every harmless run the indices differ in all states exactly if no transaction comes in right after a load while the one with the last index given out is still tracked |
| `CannonIndices.ClashAfterRestart` | crates/controlplane/src/cannon/mod.rs:127-134 | after a restart a new transaction clashes exactly if the transaction with the stored index is still tracked |
| `CannonIndices.IndexIsReused` | crates/controlplane/src/cannon/mod.rs:121-135 | two transactions with one index, one before a restart and one after |
| `CannonInstance.Instance.Write` | crates/controlplane/src/cannon/tracker.rs:84-94 | index, status and what is known of authorization and body are stored, nothing else changes |
| `CannonInstance.Instance.DeleteStored` | crates/controlplane/src/cannon/tracker.rs:97-104 | all stored data of a transaction goes and no other |
| `CannonInstance.Instance.IncReceivedTxs` | crates/controlplane/src/cannon/mod.rs:121-135 | the index given out is the counter, which goes up by one, and the index is what is stored |
| `CannonInstance.Instance.WriteTxStatus` | crates/controlplane/src/cannon/context.rs:149-160 | status is written to memory and store if the transaction is tracked |
| `CannonInstance.Instance.RemoveTxTracker` | crates/controlplane/src/cannon/context.rs:162-172 | the transaction is forgotten in memory and store |
| `CannonInstance.Instance.ProxyBroadcast` | crates/controlplane/src/cannon/mod.rs:399-474 | accepted exactly if not known and not tracked, or tracked and executing; then it is unsent with the new body |
| `CannonInstance.Instance.ProxyAuth` | crates/controlplane/src/cannon/mod.rs:503-536 | accepted exactly if not tracked; then it is authorized |
| `CannonInstance.Instance.ReceiveAuthorization` | crates/controlplane/src/cannon/context.rs:94-118 | an execution is started exactly for a tracked, authorized transaction with an authorization, and with that one |
| `CannonInstance.Instance.BeginExecution` | crates/controlplane/src/cannon/source.rs:179-199 | with an agent the status is executing and one more attempt counts; without one the status stays |
| `CannonInstance.Instance.CompleteExecution` | crates/controlplane/src/cannon/source.rs:228-261 | body and status unsent are written to memory and store and the attempts cleared, if the transaction is still tracked |
| `CannonInstance.Instance.FailExecution` | crates/controlplane/src/cannon/context.rs:200-208 | the status goes back to authorized |
| `CannonInstance.Instance.FireTx` | crates/controlplane/src/cannon/context.rs:213-383 | fires exactly a tracked, unsent or broadcast transaction with a body whose file was written and whose target, if any, has nodes, and forgets it if there is no target; any other call changes nothing |
| `CannonInstance.Instance.UpdateStatus` | crates/controlplane/src/cannon/context.rs:279-303 | a broadcast that a node has taken is recorded with height and time and counts as an attempt |
| `CannonInstance.Instance.RestoreTransactions` | crates/controlplane/src/cannon/mod.rs:138-235 | the loop over the stored statuses brings back every transaction that has an index |
| `CannonInstance.Instance.DemoteInterrupted` | crates/controlplane/src/persist/env.rs:119-138 | interrupted executions become authorized in memory and store, others stay |
| `CannonInstance.Reload` | crates/controlplane/src/persist/env.rs:110-138 | restoring and demoting is the restart step |
| `CannonInstance.Rebuild` | crates/controlplane/src/env/mod.rs:777-822 | a new cannon for the same environment is the step of applying it again |
| `Bytes.LeRoundTrip` | crates/common/src/format/packed_int.rs:23-52 | a number is read back from its little-endian bytes |
| `Bytes.PackedLengthIsLeast` | crates/common/src/format/packed_int.rs:23-32 | the number of bytes computed from the leading zeros holds the number, and no smaller number of bytes does |
| `Bytes.PackedBytes` | crates/common/src/format/packed_int.rs:23-32 | a packed number is the least number of bytes that holds it, then these bytes from the lowest to the highest |
| `Bytes.PackedRoundTrip` | crates/common/src/format/packed_int.rs:23-52 | reading a packed number gives it back and leaves what follows |
| `FormatProofs.RoundTrip` | crates/common/src/format/mod.rs:100-104 | for every type built from integers, texts, options, vectors, arrays, tuples, tagged cases and versioned records, reading the data of a value gives the value and leaves what follows |
| `FormatProofs.HeaderRoundTrip` | crates/common/src/format/mod.rs:89-98 | reading a header written with the header of its header gives it back |
| `FormatProofs.HeaderedRoundTrip` | crates/common/src/format/mod.rs:67-78 | reading what was written with its header gives the value and leaves what follows |
| `FormatProofs.TextRoundTrip` | crates/common/src/format/impl_strings.rs:8-29 | a text is read back and what follows it is left |
| `FormatProofs.VecRoundTrip` | crates/common/src/format/impl_collections.rs:90-110 | a vector is read back and what follows it is left |
| `FormatProofs.PairRoundTrip` | crates/common/src/format/impl_tuples.rs:5-43 | a tuple is read back, each part with its part of the header |
| `FormatProofs.OptionRoundTrip` | crates/common/src/format/impl_containers.rs:8-28 | an option is read back |
| `FormatReading.ReadsExactly` | crates/common/src/format/mod.rs:75-104 | for every type and header, bytes are read as a value and leave the rest exactly if the bytes before the rest are one of the ways to write that value under that header |
| `FormatReading.EncodeWrites` | crates/common/src/format/mod.rs:67-72 | what is written of a value is one of them |
| `FormatReading.WrittenLeast` | crates/common/src/format/packed_int.rs:23-32 | of the ways to write a truth value the byte 1 is used, and of those to write a packed number the shortest |
| `FormatReading.WrittenHasType` | crates/common/src/format/mod.rs:100-104 | whatever the header says, only values of the type are read, text only if it is UTF-8 and numbers only in range |
| `FormatReading.TruncatedIsRefused` | crates/common/src/format/mod.rs:67-78 | no value with its header is read from any of its bytes cut short, however nested the type and whatever the cut |
| `FormatReading.TextErrors` | crates/common/src/format/impl_strings.rs:17-28 | a text that is too short is reported with both lengths, or as no UTF-8 if what there is of it is not |
| `FormatReading.TagErrors` | crates/common/src/format/impl_containers.rs:12-28 | tags beyond the cases, zeros and length bytes over eight are refused and named |
| `Utf8.Utf8Means` | crates/common/src/format/impl_strings.rs:17-28 | bytes are accepted as text exactly if they are the encoding of some sequence of characters, surrogates and overlong forms excluded |
| `FormatProofs.OldVersionReads` | crates/common/src/state/node_state.rs:97-134 | data written before a part was added reads as the same value without that part |
| `FormatProofs.OtherVersionsRefused` | crates/common/src/state/node_state.rs:101-107 | every version but the two known ones is refused with that version |
| `FormatProofs.WrongVersionRefused` | crates/common/src/state/height_request.rs:72-82 | what a type with one version has written, header first, is read back by the same version and refused at the header by every other, whatever bytes follow |
| `FormatStreams.Writer.WritePacked` | crates/common/src/format/packed_int.rs:23-32 | appends the length byte and the bytes and returns their number |
| `FormatStreams.Writer.WriteAll` | crates/common/src/format/impl_collections.rs:94-100 | the loop appends the items one after the other and returns the bytes written |
| `FormatStreams.Writer.WriteHeader` | crates/common/src/format/mod.rs:89-91 | appends the header of the header and the header |
| `FormatStreams.Writer.WriteDataFormat` | crates/common/src/format/mod.rs:67-72 | appends header and data and returns the bytes written |
| `FormatStreams.Reader.ReadPacked` | crates/common/src/format/packed_int.rs:34-51 | reads the bytes into a buffer of eight; a length over eight or an early end is an error |
| `FormatStreams.Reader.ReadText` | crates/common/src/format/impl_strings.rs:17-28 | reads exactly the announced bytes, refuses what is not UTF-8, and reports fewer bytes with both numbers |
| `FormatStreams.Reader.ReadAll` | crates/common/src/format/impl_collections.rs:102-109 | the loop reads the announced number of items, each with the same header |
| `FormatStreams.Reader.ReadGrown` | crates/common/src/state/node_state.rs:97-134 | the branch on the version: refused, without the added part, or with it |
| `FormatStreams.Reader.ReadHeader` | crates/common/src/format/mod.rs:93-98 | reads the header of the header, then the header with it |
| `FormatStreams.Reader.ReadDataFormat` | crates/common/src/format/mod.rs:75-78 | reads the header, then the data with it |
| `NodeStateFormat.HeaderIsVersions` | crates/common/src/format/mod.rs:80-98 | the header of a type is the versions of its parts in order and nothing else |
| `NodeStateFormat.NodeStateHeader` | crates/common/src/state/node_state.rs:21-76 | the eight bytes in front of a node state |
| `NodeStateFormat.FieldsHaveType` | crates/common/src/state/node_state.rs:8-18 | every node state is a value of the type its format describes |
| `NodeStateFormat.StatesDiffer` | crates/common/src/state/node_state.rs:8-18 | different node states are different values |
| `NodeStateFormat.NodeStateRoundTrip` | crates/common/src/state/node_state.rs:80-134 | a node state written with its header is read back and what follows is left |
| `NodeStateFormat.OldNodeStateReads` | crates/common/src/state/node_state.rs:97-134 | what version 1 wrote reads as the same state without a binary |
| `PrefixStore.PrefixFree` | crates/common/src/format/impl_strings.rs:31-51 | no encoding is a prefix of that of another value of the type, whatever follows |
| `PrefixStore.PrefixIsExact` | crates/common/src/db/tree.rs:49-55 | the bytes of a key start with those of an environment, or of an environment and a cannon, exactly if the key is of that environment and cannon |
| `PrefixStore.KeyReads` | crates/common/src/db/tree.rs:55-75 | a key is read back from its bytes |
| `PrefixStore.DbTree.Save` | crates/common/src/db/tree.rs:93-99 | the row is there with the value and no other row changes |
| `PrefixStore.DbTree.Restore` | crates/common/src/db/tree.rs:85-91 | the value saved last under the key, or none |
| `PrefixStore.DbTree.Delete` | crates/common/src/db/tree.rs:108-110 | the row is gone, no other row changes, and the result says whether it was there |
| `PrefixStore.DbTree.ReadWithPrefix` | crates/common/src/db/tree.rs:49-83 | yields every row of the environment or cannon once and no other |
| `PrefixStore.DbTree.DeleteWithPrefix` | crates/common/src/db/tree.rs:112-144 | removes exactly the rows of the environment or cannon and returns their number |
| `NetworkCache.RunKeepsConsistent` | crates/controlplane/src/env/cache.rs:151-201 | in every reachable state blocks and transaction lists have the same hashes, heights point at cached blocks of that height, and transactions at cached blocks |
| `NetworkCache.StepKeepsIndexed` | crates/controlplane/src/env/cache.rs:151-201 | a step keeps the transaction index equal to the transaction lists exactly if the block added loses none of its transactions and shares none with another block |
| `NetworkCache.FindIsScan` | crates/controlplane/src/env/cache.rs:180-183 | after every run of such steps looking up a transaction gives what scanning the cached blocks gives, in whatever order |
| `NetworkCache.SharedTransactionIsLost` | crates/controlplane/src/env/cache.rs:151-201 | a transaction in two blocks is not found any more when the second of them is removed |
| `NetworkCache.LatestIsLargest` | crates/controlplane/src/env/cache.rs:76-88 | the latest block is the first of all offered with the largest timestamp |
| `CacheHistory.KnowsLastSaid` | crates/controlplane/src/env/cache.rs:151-201 | a cache knows the block at a height, a block with its transactions, or the block of a transaction, exactly if a block came in that said so and nothing has overridden it since |
| `CacheHistory.HeightsDiffer` | crates/controlplane/src/env/cache.rs:151-201 | in every reachable state no two heights have the same block |
| `NetworkCache.Blocks.UpdateLatestInfo` | crates/controlplane/src/env/cache.rs:76-88 | the latest block is replaced exactly by one with a larger timestamp, or if there is none |
| `NetworkCache.Blocks.Insert` | crates/controlplane/src/env/cache.rs:151-168 | all maps are updated for the new block |
| `NetworkCache.Blocks.Delete` | crates/controlplane/src/env/cache.rs:194-201 | the block is gone from all maps |
| `NetworkCache.Blocks.StaleBlocks` | crates/controlplane/src/env/cache.rs:141-149 | exactly the blocks not updated for three minutes |
| `NetworkCache.Blocks.Cull` | crates/controlplane/src/env/cache.rs:31-43 | exactly the blocks updated within the last three minutes stay |
| `Imports.ReachableImport` | crates/aot/src/auth/query.rs:53-66 | an import of a reachable program that is neither loaded nor the credits program is reachable |
| `Imports.AllReached` | crates/aot/src/auth/query.rs:42-73 | once the queue is empty every chain of imports has been followed |
| `Imports.GetImports` | crates/aot/src/auth/query.rs:42-73 | ends with exactly the programs reachable through imports that are neither loaded nor the credits program, each fetched once, or with one of them that cannot be fetched |

## Left out

- Filter texts beyond ASCII: the lexer slices bytes by character positions.
- Error message texts, log lines and emitted events.
- Files: writing, loading and deleting checkpoint files, and removing checkpoints of another network (crates/checkpoint/src/manager.rs:31-127).
- Looking up the nearest checkpoint (crates/checkpoint/src/manager.rs:224-242).
- Reading the clock; where the program reads it the model has a parameter.
- The default retention policy, which is one policy among all.
- RetentionPromise.HonouredExactly: policies in which two rules have the same duration, which the program calls mishaps (crates/checkpoint/src/retention.rs:122-134), and policies that are not ordered by duration.
- Wildcard patterns: the pattern library is not part of the repository; a pattern keeps one of several adjacent stars, a star stands for any text and a question mark for one character.
- Interned ids are texts that fit the pattern of ids; the interner is not part of this model.
- snarkVM's stores are one map from keys to values; reading one never fails otherwise than by absence.
- LedgerStores.Stores.FastBlockRemove: of the full transactions that are read for the rejected ones only their confirmations are looked at (crates/checkpoint/src/ledger.rs:92-100).
- LedgerRewind.AnyInterleavingRewinds: a removal function reads all it needs of a block or a transition in one step; entries deleted by other removals in between are not its own, so nothing it reads can change.
- Round numbers do not saturate at 64 bits.
- LedgerRewind.Rewind: takes the order of the removals as a parameter, the parallel iterator being the interleaving machine in Ledger, and leaves out the program mappings, the current round and the check of the highest height (crates/checkpoint/src/checkpoint.rs:123-172).
- Claims on compute agents (crates/controlplane/src/env/set.rs:152-164) follow the same protocol on another cell.
- PairingProofs.PairingIsSound: agents keep their own references while pairing runs; Claims shows what happens otherwise.
- The order in which a hash map hands out labels or pairs; the results do not depend on it.
- Documents other than those for nodes, storage, cannons and the reconciler.
- Node peers that are resolved later, and the persistence of environments apart from their transactions.
- CannonProofs.RestartLosesNothing: every write to the store succeeds and restarts fall between steps.
- CannonProofs.ReappliedExecutionIsStuck: the replaced cannon writes nothing once the new one has loaded; the program aborts its task when it is dropped, shortly after (crates/controlplane/src/cannon/mod.rs:539-547).
- The Demox compute target, transaction files, the query endpoints of a cannon, and the time limits after which transactions are retried or given up; giving one up is a step that can happen at any time.
- The counter of received transactions does not wrap at 64 bits, and it is kept apart from the indices; the program stores it among them under the empty transaction id, so the index of a transaction with the empty id would be the counter (crates/controlplane/src/cannon/mod.rs:121-134).
- A map is written as its pairs; pairs with equal keys that a reader would merge are not part of this model.
- Byte counts that some tagged types return too small, socket addresses with flow or scope, JSON and time values.
- Sled is a map from bytes to bytes; the order of a scan is a parameter, and a row that does not parse is passed over.
- Peer penalties, peer infos and the range check of the cache (crates/controlplane/src/env/cache.rs:90-139).
- `load_program`, which calls itself on the program it was given and so need not end (crates/aot/src/auth/query.rs:28-31).
