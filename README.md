# Model routing helper, modelled in Dafny

This project models the model-routing helper of the meta-agent system
(`src/model_router.py`). The helper does three things:

- **Routing.** It maps a free-text task description to a model id. The task
  is lower-cased. The keywords of an ordered routing table are tried in
  table order, and the first keyword that occurs as a substring decides the
  model. A task with no keyword gets the default model, "sonar".
- **Fallback chain.** It builds an ordered list of candidate model ids for a
  task. A priority family is chosen: "orchestration" is tested first, then
  the reasoning keywords, then the code keywords. With no family, the chain
  is just the routed model. Each chain entry is then followed by its
  alternate aliases. Finally, repeats are dropped, keeping first occurrences.
- **Client with fallback.** It calls a client factory on the candidates in
  order. It returns the first client the factory builds. When every
  candidate fails, it reports one error per candidate.

Files:

- `wrappers.dfy`: module `Wrappers`, the `Option` and `Result` datatypes.
- `text.dfy`: module `Text`, lower-casing (ASCII) and the substring test.
- `model_router.dfy`: module `ModelRouter`. It holds the four constant
  tables, routing as a recursive search (`FirstMatchFrom`, `PickModel`),
  and family selection as pure conditionals (`FamilyOf`, `PriorityChain`).
  The chain building is imperative: `ExpandAliases` and
  `DedupPreservingOrder` are its two loops, and `ModelFallbackChain` runs
  them in sequence. `TryCandidates` is the try-in-order loop, and
  `GetLlmWithFallback` runs it on the task's chain.

Each loop method is proved against a specification function: `Expand`,
`Dedup` or `FallbackChain`, or the predicate `TriedInOrder`. The lemmas
state what the source promises about those functions.

`streamlit_ui.py` walks through four steps: describe the agent, choose a
strategy, review a blueprint (with a revise button), and download generated
code. Each step shows hard-coded sample output. No code in the repository
implements that consult, design and build workflow, so it is not modelled.

One point about the default model. "sonar" is the default, but it is also
the model for five routing keywords. So `PickModel` states that the
default path is taken exactly when no keyword occurs. It does not say the
result is "sonar" only then. `UnroutedChainIsSonar` shows a consequence:
the routing table's reasoning and code keywords are exactly the family
keywords. So a task outside every family always falls back to "sonar".
`FallbackChainByFamily` then shows that only four candidate lists can
arise, and none of them loses an entry to deduplication.

## Model

| member | source | states |
|---|---|---|
| `Text.Lower` | src/model_router.py:73 | the lowered task has the same length, contains no capital letter, and differs from the input only where the input has a capital letter |
| `Text.LowerIdempotent` | src/model_router.py:73 | lowering an already lowered task changes nothing |
| `Text.Contains` | src/model_router.py:75 | the substring test `keyword in lowered` (also used at lines 85, 87 and 89): the empty keyword occurs in every string, a string contains itself, and a keyword longer than the text never occurs |
| `ModelRouter.FirstMatchFrom` | src/model_router.py:74-77 | the table search returns the index of the first entry, in table order, whose keyword occurs in the text; it returns none exactly when no keyword from that point on occurs |
| `ModelRouter.PickModel` | src/model_router.py:64-77 | no keyword occurs in the lowered task ⇒ the default model; otherwise the model of the first matching keyword in table order |
| `ModelRouter.PickModelIgnoresCase` | src/model_router.py:73-76 | matching is case-insensitive: a task and its lower-cased form are routed to the same model |
| `ModelRouter.PickModelRange` | src/model_router.py:21-44 | routing only ever yields "sonar", "sonar-reasoning" or "claude-3.5-sonnet", that is, a table value or the default |
| `ModelRouter.RoutingTableGroups` | src/model_router.py:21-42 | every routing entry maps to "sonar" or has a reasoning-family or code-family keyword, and its model is one of the three table values |
| `ModelRouter.PickModelArchitectureDesign` | src/model_router.py:10-11 | "architecture design" is routed to "sonar-reasoning", as the module's usage example says |
| `ModelRouter.KeywordsOfArchitectureDesign` | src/model_router.py:23-30 | of the first six routing keywords only "architecture" occurs in "architecture design", so the search stops at that entry |
| `ModelRouter.FamilyOf` | src/model_router.py:85-92 | a task is in the orchestration family exactly when its lowered form contains "orchestration". It is in the reasoning family exactly when it does not and some reasoning keyword occurs. It is in the code family exactly when neither earlier test holds and some code keyword occurs. It is in no family exactly when none of the three tests holds. `OrchestrationTestedFirst`, `ReasoningTestedBeforeCode`, `CodeTestedLast` and `UnroutedChainIsSonar` give the chain each case selects |
| `ModelRouter.GetOr` | src/model_router.py:86-90 | `dict.get` with a default: the stored list for a present key, the default for a missing one |
| `ModelRouter.PriorityChain` | src/model_router.py:82-92 | the priority chain chosen for a task is never empty |
| `ModelRouter.OrchestrationTestedFirst` | src/model_router.py:85-86 | a task containing "orchestration" gets the orchestration chain, whatever other keywords it contains |
| `ModelRouter.ReasoningTestedBeforeCode` | src/model_router.py:87-88 | without "orchestration", any reasoning keyword selects the reasoning chain, even when code keywords are also present |
| `ModelRouter.CodeTestedLast` | src/model_router.py:89-90 | the code chain is chosen only when neither earlier family matched |
| `ModelRouter.UnroutedChainIsSonar` | src/model_router.py:91-92 | with no family, the chain is the routed model alone, and that model is always "sonar" |
| `ModelRouter.AliasesOf` | src/model_router.py:98 | the alias list of a model, or the empty list when it has no entry. A model is never its own alias, and aliases have no aliases of their own, so a single round of expansion reaches every alternate |
| `ModelRouter.ExpandConcat` | src/model_router.py:95-98 | expanding a concatenation of chains is concatenating their expansions |
| `ModelRouter.ExpandCons` | src/model_router.py:96-98 | an expanded chain is its first entry, then that entry's aliases (none when it has no entry in the alias table), then the rest expanded |
| `ModelRouter.ExpandMembers` | src/model_router.py:95-98 | an id is in the expansion exactly when it is a chain entry or an alias of one |
| `ModelRouter.ExpandAliases` | src/model_router.py:94-98 | the loop over the chain builds exactly the expansion of the chain |
| `ModelRouter.Dedup` | src/model_router.py:100-107 | the deduplicated list has no repeats and holds exactly the values of its input |
| `ModelRouter.DedupKeepsFirstOccurrenceOrder` | src/model_router.py:100-107 | deduplicated entries appear in the order of their first occurrences in the input |
| `ModelRouter.DedupHead` | src/model_router.py:100-107 | deduplicating a non-empty list keeps its first entry at the front |
| `ModelRouter.DedupOfDistinct` | src/model_router.py:100-107 | a list without repeats comes out of deduplication unchanged |
| `ModelRouter.DedupPreservingOrder` | src/model_router.py:100-107 | the loop with its seen set builds exactly the deduplicated list |
| `ModelRouter.ModelFallbackChain` | src/model_router.py:80-107 | the candidate list is the deduplicated expansion of the priority chain; it has no repeats, is never empty and starts with the chain's first entry |
| `ModelRouter.FallbackChainShape` | src/model_router.py:95-107 | the candidate list has no repeats, holds exactly the expanded entries and begins with the priority chain's first entry |
| `ModelRouter.ExpandedOrchestrationChain` | src/model_router.py:49-58 | the orchestration chain expands to google-fast, its alias, sonar, its two aliases, sonar-reasoning and its alias, with no repeats |
| `ModelRouter.ExpandedReasoningChain` | src/model_router.py:50-59 | the reasoning chain expands to google-pro-reasoning, its alias, sonar-reasoning, its alias, sonar and its two aliases, with no repeats |
| `ModelRouter.ExpandedCodeChain` | src/model_router.py:51-60 | the code chain expands to google-code, its alias, claude-3.5-sonnet (which has no alias), sonar-reasoning and its alias, with no repeats |
| `ModelRouter.ExpandedDefaultChain` | src/model_router.py:44-56 | the default model alone expands to "sonar", "sonar-alt-1" and "sonar-alt-2", with no repeats |
| `ModelRouter.FallbackChainByFamily` | src/model_router.py:80-107 | each family, and the no-family case, yields its one fixed candidate list |
| `ModelRouter.HandoffIsUnrouted` | src/model_router.py:85-92 | "handoff" contains neither "orchestration" nor a reasoning or code keyword, so it belongs to no family |
| `ModelRouter.HandoffFallbackChain` | src/model_router.py:80-107 | the candidates of "handoff" are "sonar" and its two aliases |
| `ModelRouter.TryCandidates` | src/model_router.py:128-135 | success exactly when the factory succeeds on some candidate. On success, the factory was called on candidates strictly in order, failed on all before the last, built the returned client from the last, and was not called on any later candidate. On failure, it was called on every candidate and the errors list has one entry per candidate, in order |
| `ModelRouter.GetLlmWithFallback` | src/model_router.py:110-135 | the same outcome over the task's fallback chain. The first candidate is always tried, and a failure carries the task and a non-empty error list |

## Left out

- `Text.Lower`: Python's `str.lower` is modelled on ASCII letters only, and every other character is kept as it is. This does not change routing. By the Unicode case tables, only U+0130 and U+212A lower-case to something containing an ASCII letter: "i" followed by U+0307, and "k". No routing or family keyword contains "k" or ends in "i". All keywords are ASCII, so no other non-ASCII character can take part in a match. `PickModel` and `FamilyOf` therefore route every task as the Python code does.
- `ModelRouter.TryCandidates` and `ModelRouter.GetLlmWithFallback`: the `except Exception` clause at src/model_router.py:132 is modelled as a factory that returns `Failure(e)`. Exceptions that are not `Exception`s, such as `KeyboardInterrupt`, `SystemExit` and `GeneratorExit`, leave `get_llm_with_fallback` at once without trying later candidates. That outcome is not modelled. The `RuntimeError` raised at line 135 is modelled as the `AllFallbacksFailed(taskType, errors)` result.
- The text of the error messages (`"{model}: {exc}"` and the RuntimeError sentence) is not modelled. Each error is the pair `ModelError(model, error)`, and the error value is opaque.
- The client factory is a pure, total function from model id to success or failure. Its own side effects (network, credentials, credit checks) are not modelled. The candidate list has no repeats, so each id is passed to it at most once, and a factory that answers differently on repeated calls makes no difference here. The ghost out-parameter `calls` records which ids were passed to it.
- The two loops of `model_fallback_chain` are the separate methods `ExpandAliases` and `DedupPreservingOrder`. The loop of `get_llm_with_fallback` is `TryCandidates`. The top-level methods call them. The statements and their order are the source's.
- The commented-out client factory stubs (src/model_router.py:138-154) call foreign libraries and are not modelled.
- `streamlit_ui.py` is not modelled. It holds page layout, widgets and hard-coded sample output, and it does not call the router.
