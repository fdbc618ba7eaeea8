/**
 * Keyword-based model routing: choose a model id for a free-text task
 * description, build an ordered list of fallback candidates for it, and
 * try a client factory on those candidates in order.
 */
module ModelRouter {
  import opened Wrappers
  import opened Text

  /** The model chosen when no routing keyword occurs in the task. */
  const DefaultModel: string := "sonar"

  /**
   * The keyword routing table as (keyword, model) pairs, in the order the
   * table declares them; the search takes the first keyword that occurs.
   */
  const ModelMap: seq<(string, string)> := [
    // orchestration and glue
    ("orchestration", "sonar"),
    ("handoff", "sonar"),
    ("routing", "sonar"),
    ("chat", "sonar"),
    ("summary", "sonar"),
    // reasoning and architecture
    ("architecture", "sonar-reasoning"),
    ("design", "sonar-reasoning"),
    ("reasoning", "sonar-reasoning"),
    ("blueprint", "sonar-reasoning"),
    ("plan", "sonar-reasoning"),
    // code, debugging, implementation
    ("code", "claude-3.5-sonnet"),
    ("implement", "claude-3.5-sonnet"),
    ("debug", "claude-3.5-sonnet"),
    ("fix", "claude-3.5-sonnet"),
    ("refactor", "claude-3.5-sonnet")
  ]

  /** Priority chains, primary model first, per task family. */
  const ModelPriorities: map<string, seq<string>> := map[
    "orchestration" := ["google-fast", "sonar", "sonar-reasoning"],
    "reasoning" := ["google-pro-reasoning", "sonar-reasoning", "sonar"],
    "code" := ["google-code", "claude-3.5-sonnet", "sonar-reasoning"]
  ]

  /** Alternate ids (further keys or providers) that stand in for a model. */
  const AlternateModelAliases: map<string, seq<string>> := map[
    "sonar" := ["sonar-alt-1", "sonar-alt-2"],
    "sonar-reasoning" := ["sonar-reasoning-alt"],
    "google-fast" := ["google-fast-alt"],
    "google-pro-reasoning" := ["google-pro-reasoning-alt"],
    "google-code" := ["google-code-alt"]
  ]

  /** Keywords that put a task in the reasoning family. */
  const ReasoningKeywords: seq<string> := ["design", "architecture", "reasoning", "plan", "blueprint"]

  /** Keywords that put a task in the code family. */
  const CodeKeywords: seq<string> := ["code", "implement", "debug", "fix", "refactor"]

  /** Dictionary lookup that yields `default` for a missing key. */
  function GetOr(m: map<string, seq<string>>, key: string, default: seq<string>): (r: seq<string>)
    ensures key in m ==> r == m[key]
    ensures key !in m ==> r == default
  {
    if key in m then m[key] else default
  }

  // ---------------------------------------------------------------------------
  // pick_model
  // ---------------------------------------------------------------------------

  /** Entry `i` of `table` is the first whose keyword occurs in `text`. */
  predicate IsFirstMatch(table: seq<(string, string)>, text: string, i: int)
  {
    && 0 <= i < |table|
    && Contains(text, table[i].0)
    && forall j :: 0 <= j < i ==> !Contains(text, table[j].0)
  }

  /** No keyword of `table` occurs in `text`. */
  predicate NoKeywordIn(table: seq<(string, string)>, text: string)
  {
    forall j :: 0 <= j < |table| ==> !Contains(text, table[j].0)
  }

  /**
   * The index of the first entry of `table`, at or after `from`, whose
   * keyword occurs in `text`; None when there is none.
   */
  function FirstMatchFrom(table: seq<(string, string)>, text: string, from: nat): (r: Option<nat>)
    requires from <= |table|
    ensures r.Some? ==> from <= r.value < |table| && Contains(text, table[r.value].0)
    ensures r.Some? ==> forall j :: from <= j < r.value ==> !Contains(text, table[j].0)
    ensures r.None? <==> forall j :: from <= j < |table| ==> !Contains(text, table[j].0)
    decreases |table| - from
  {
    if from == |table| then None
    else if Contains(text, table[from].0) then Some(from)
    else FirstMatchFrom(table, text, from + 1)
  }

  /** At most one entry is the first match. */
  lemma FirstMatchUnique(table: seq<(string, string)>, text: string, i: int, j: int)
    requires IsFirstMatch(table, text, i) && IsFirstMatch(table, text, j)
    ensures i == j
  {
  }

  /**
   * The model for a task: the model of the first keyword, in table order,
   * that occurs in the lower-cased task, else the default model.
   */
  function PickModel(taskType: string): (r: string)
    ensures NoKeywordIn(ModelMap, Lower(taskType)) ==> r == DefaultModel
    ensures forall i :: IsFirstMatch(ModelMap, Lower(taskType), i) ==> r == ModelMap[i].1
  {
    match FirstMatchFrom(ModelMap, Lower(taskType), 0)
    case Some(i) =>
      assert forall j :: IsFirstMatch(ModelMap, Lower(taskType), j) ==> j == i by {
        forall j | IsFirstMatch(ModelMap, Lower(taskType), j) ensures j == i {
          FirstMatchUnique(ModelMap, Lower(taskType), i, j);
        }
      }
      ModelMap[i].1
    case None => DefaultModel
  }

  /** Routing ignores case: a task routes as its lower-cased form does. */
  lemma PickModelIgnoresCase(taskType: string)
    ensures PickModel(Lower(taskType)) == PickModel(taskType)
  {
    LowerIdempotent(taskType);
  }

  /** Only three models can come out of routing. */
  lemma PickModelRange(taskType: string)
    ensures PickModel(taskType) in {"sonar", "sonar-reasoning", "claude-3.5-sonnet"}
  {
    var first := FirstMatchFrom(ModelMap, Lower(taskType), 0);
    if first.Some? {
      assert IsFirstMatch(ModelMap, Lower(taskType), first.value);
      RoutingTableGroups(first.value);
    }
  }

  /** The documented example: an architecture task goes to the reasoning model. */
  lemma PickModelArchitectureDesign(task: string)
    requires task == "architecture design"
    ensures PickModel(task) == "sonar-reasoning"
  {
    LowerArchitectureDesign(task);
    KeywordsOfArchitectureDesign(task);
    // the search passes the five orchestration-group keywords and stops at "architecture"
    assert FirstMatchFrom(ModelMap, task, 5) == Some(5);
    assert FirstMatchFrom(ModelMap, task, 4) == Some(5);
    assert FirstMatchFrom(ModelMap, task, 3) == Some(5);
    assert FirstMatchFrom(ModelMap, task, 2) == Some(5);
    assert FirstMatchFrom(ModelMap, task, 1) == Some(5);
    assert FirstMatchFrom(ModelMap, task, 0) == Some(5);
  }

  /** "architecture design" has no capital letter, so lower-casing keeps it. */
  lemma LowerArchitectureDesign(task: string)
    requires task == "architecture design"
    ensures Lower(task) == task
  {
    assert IsLower(task);
    LowerOfLower(task);
  }

  /**
   * Of the first six routing keywords, only "architecture" occurs in
   * "architecture design".
   */
  lemma KeywordsOfArchitectureDesign(task: string)
    requires task == "architecture design"
    ensures !Contains(task, "orchestration") && !Contains(task, "handoff") && !Contains(task, "routing")
    ensures !Contains(task, "chat") && !Contains(task, "summary") && Contains(task, "architecture")
  {
    MissingCharExcludes(task, "orchestration", 'o');
    MissingCharExcludes(task, "handoff", 'o');
    MissingCharExcludes(task, "routing", 'o');
    NoChatInArchitectureDesign(task);
    MissingCharExcludes(task, "summary", 'm');
    assert OccursAt(task, "architecture", 0);
  }

  /** "chat" does not occur in "architecture design": its "ch" is followed by "i". */
  lemma NoChatInArchitectureDesign(task: string)
    requires task == "architecture design"
    ensures !Contains(task, "chat")
  {
    forall i | OccursAt(task, "chat", i) ensures false {
      OccursAtHead(task, "chat", i);
      OccursAtHead(task, "hat", i + 1);
      OccursAtHead(task, "at", i + 2);
      LetterCInArchitectureDesign(task, i);
    }
  }

  /** The letter "c" occurs in "architecture design" only at indices 2 and 7. */
  lemma LetterCInArchitectureDesign(task: string, i: int)
    requires task == "architecture design"
    requires 0 <= i < |task| && task[i] == 'c'
    ensures i == 2 || i == 7
  {
  }

  // ---------------------------------------------------------------------------
  // model_fallback_chain: choosing the priority family
  // ---------------------------------------------------------------------------

  /** The task families that have a priority chain, and the rest. */
  datatype Family = Orchestration | Reasoning | Code | Unrouted

  /** Some keyword of `keys` occurs in `text`. */
  predicate AnyContained(keys: seq<string>, text: string)
  {
    exists k :: k in keys && Contains(text, k)
  }

  /**
   * The family of a task: "orchestration" is tested first, then the
   * reasoning keywords, then the code keywords, all on the lower-cased task.
   */
  function FamilyOf(taskType: string): (f: Family)
    ensures f == Orchestration <==> Contains(Lower(taskType), "orchestration")
    ensures f == Reasoning <==>
      !Contains(Lower(taskType), "orchestration") && AnyContained(ReasoningKeywords, Lower(taskType))
    ensures f == Code <==>
      && !Contains(Lower(taskType), "orchestration")
      && !AnyContained(ReasoningKeywords, Lower(taskType))
      && AnyContained(CodeKeywords, Lower(taskType))
    ensures f == Unrouted <==>
      && !Contains(Lower(taskType), "orchestration")
      && !AnyContained(ReasoningKeywords, Lower(taskType))
      && !AnyContained(CodeKeywords, Lower(taskType))
  {
    var lowered := Lower(taskType);
    if Contains(lowered, "orchestration") then Orchestration
    else if AnyContained(ReasoningKeywords, lowered) then Reasoning
    else if AnyContained(CodeKeywords, lowered) then Code
    else Unrouted
  }

  /**
   * The priority chain of a task before alias expansion: the family's chain
   * from the priority table, or just the picked model when no family applies.
   */
  function PriorityChain(taskType: string): (chain: seq<string>)
    ensures chain != []
  {
    var primary := PickModel(taskType);
    match FamilyOf(taskType)
    case Orchestration => GetOr(ModelPriorities, "orchestration", [primary])
    case Reasoning => GetOr(ModelPriorities, "reasoning", [primary])
    case Code => GetOr(ModelPriorities, "code", [primary])
    case Unrouted => [primary]
  }

  /** "orchestration" wins over every other keyword in the task. */
  lemma OrchestrationTestedFirst(taskType: string)
    requires Contains(Lower(taskType), "orchestration")
    ensures PriorityChain(taskType) == ["google-fast", "sonar", "sonar-reasoning"]
  {
  }

  /** Without "orchestration", a reasoning keyword wins over any code keyword. */
  lemma ReasoningTestedBeforeCode(taskType: string)
    requires !Contains(Lower(taskType), "orchestration")
    requires AnyContained(ReasoningKeywords, Lower(taskType))
    ensures PriorityChain(taskType) == ["google-pro-reasoning", "sonar-reasoning", "sonar"]
  {
  }

  /** Code keywords decide only when no earlier family matched. */
  lemma CodeTestedLast(taskType: string)
    requires !Contains(Lower(taskType), "orchestration")
    requires !AnyContained(ReasoningKeywords, Lower(taskType))
    requires AnyContained(CodeKeywords, Lower(taskType))
    ensures PriorityChain(taskType) == ["google-code", "claude-3.5-sonnet", "sonar-reasoning"]
  {
  }

  /**
   * A task outside every family falls back to its picked model, and that model
   * is always "sonar": the reasoning and code keywords of the routing table are
   * exactly the family keywords, so only an orchestration-group keyword or the
   * default can have been picked.
   */
  lemma UnroutedChainIsSonar(taskType: string)
    requires FamilyOf(taskType) == Unrouted
    ensures PriorityChain(taskType) == [DefaultModel]
  {
    var lowered := Lower(taskType);
    var first := FirstMatchFrom(ModelMap, lowered, 0);
    if first.Some? {
      var i := first.value;
      assert IsFirstMatch(ModelMap, lowered, i);
      RoutingTableGroups(i);
    }
  }

  /**
   * Every entry of the routing table either routes to "sonar" or has a
   * keyword of the reasoning or the code family.
   */
  lemma RoutingTableGroups(i: int)
    requires 0 <= i < |ModelMap|
    ensures ModelMap[i].1 == DefaultModel || ModelMap[i].0 in ReasoningKeywords || ModelMap[i].0 in CodeKeywords
    ensures ModelMap[i].1 in {"sonar", "sonar-reasoning", "claude-3.5-sonnet"}
  {
  }

  // ---------------------------------------------------------------------------
  // model_fallback_chain: alias expansion and order-preserving deduplication
  // ---------------------------------------------------------------------------

  /**
   * The alternate ids of a model, none when it has no entry. An alias is
   * never the model itself and has no aliases of its own, so one round of
   * expansion reaches every alternate.
   */
  function AliasesOf(model: string): (r: seq<string>)
    ensures model in AlternateModelAliases ==> r == AlternateModelAliases[model]
    ensures model !in AlternateModelAliases ==> r == []
    ensures model !in r
    ensures forall a :: a in r ==> a !in AlternateModelAliases
  {
    GetOr(AlternateModelAliases, model, [])
  }

  /** Each entry of `chain`, in order, followed by its aliases. */
  function Expand(chain: seq<string>): seq<string>
  {
    if chain == [] then []
    else
      var last := chain[|chain| - 1];
      Expand(chain[..|chain| - 1]) + [last] + AliasesOf(last)
  }

  /** Expansion distributes over concatenation of chains. */
  lemma {:induction false} ExpandConcat(a: seq<string>, b: seq<string>)
    ensures Expand(a + b) == Expand(a) + Expand(b)
    decreases |b|
  {
    if b == [] {
      assert a + b == a;
    } else {
      var last := b[|b| - 1];
      assert (a + b)[..|a + b| - 1] == a + b[..|b| - 1];
      ExpandConcat(a, b[..|b| - 1]);
    }
  }

  /** Read front to back: the first entry, its aliases, then the rest expanded. */
  lemma ExpandCons(model: string, rest: seq<string>)
    ensures Expand([model] + rest) == [model] + AliasesOf(model) + Expand(rest)
  {
    ExpandConcat([model], rest);
    assert [model][..0] == [];
  }

  /** Expansion keeps every entry and adds exactly the entries' aliases. */
  lemma {:induction false} ExpandMembers(chain: seq<string>, m: string)
    ensures m in Expand(chain) <==> exists i :: 0 <= i < |chain| && (m == chain[i] || m in AliasesOf(chain[i]))
    decreases |chain|
  {
    if chain != [] {
      var init := chain[..|chain| - 1];
      ExpandMembers(init, m);
      if m in Expand(init) {
        var i :| 0 <= i < |init| && (m == init[i] || m in AliasesOf(init[i]));
        assert chain[i] == init[i];
      }
      if exists i :: 0 <= i < |chain| && (m == chain[i] || m in AliasesOf(chain[i])) {
        var i :| 0 <= i < |chain| && (m == chain[i] || m in AliasesOf(chain[i]));
        if i < |init| {
          assert init[i] == chain[i];
        }
      }
    }
  }

  /** No value appears twice in `s`. */
  predicate NoDuplicates(s: seq<string>)
  {
    forall i, j :: 0 <= i < j < |s| ==> s[i] != s[j]
  }

  /**
   * The entries of `s` with repeats dropped, each kept where it first
   * occurs: an entry is appended unless it was already kept.
   */
  function Dedup(s: seq<string>): (r: seq<string>)
    ensures NoDuplicates(r)
    ensures forall x :: x in r <==> x in s
  {
    if s == [] then []
    else
      var last := s[|s| - 1];
      var kept := Dedup(s[..|s| - 1]);
      assert s == s[..|s| - 1] + [last];
      if last in kept then kept else kept + [last]
  }

  /** The index of the first occurrence of `x` in `s`. */
  function FirstIndex(s: seq<string>, x: string): (i: nat)
    requires x in s
    ensures i < |s| && s[i] == x && x !in s[..i]
  {
    if s[0] == x then 0
    else
      var i := 1 + FirstIndex(s[1..], x);
      assert s[..i] == [s[0]] + s[1..][..i - 1];
      i
  }

  /** A prefix that holds `x` has the same first occurrence of `x`. */
  lemma FirstIndexOfPrefix(s: seq<string>, n: nat, x: string)
    requires n <= |s| && x in s[..n]
    ensures x in s && FirstIndex(s, x) == FirstIndex(s[..n], x)
  {
    var k := FirstIndex(s[..n], x);
    assert s[..k] == s[..n][..k];
  }

  /**
   * Deduplication keeps first-occurrence order: when an entry comes before
   * another in the result, its first occurrence in `s` comes first too.
   */
  lemma {:induction false} DedupKeepsFirstOccurrenceOrder(s: seq<string>, i: int, j: int)
    requires 0 <= i < j < |Dedup(s)|
    ensures Dedup(s)[i] in s && Dedup(s)[j] in s
    ensures FirstIndex(s, Dedup(s)[i]) < FirstIndex(s, Dedup(s)[j])
    decreases |s|
  {
    var n := |s| - 1;
    var init := s[..n];
    var kept := Dedup(init);
    var d := Dedup(s);
    assert d[i] in s && d[j] in s;
    if j < |kept| {
      assert d[i] == kept[i] && d[j] == kept[j];
      DedupKeepsFirstOccurrenceOrder(init, i, j);
      FirstIndexOfPrefix(s, n, kept[i]);
      FirstIndexOfPrefix(s, n, kept[j]);
    } else {
      // the new last entry, which occurs nowhere earlier
      assert d == kept + [s[n]] && d[j] == s[n] && s[n] !in init;
      assert d[i] == kept[i] && kept[i] in init;
      FirstIndexOfPrefix(s, n, kept[i]);
    }
  }

  /** A non-empty sequence keeps its first entry at the front. */
  lemma DedupHead(s: seq<string>)
    requires s != []
    ensures Dedup(s) != [] && Dedup(s)[0] == s[0]
  {
    var d := Dedup(s);
    assert s[0] in d;
    var k :| 0 <= k < |d| && d[k] == s[0];
    if k > 0 {
      DedupKeepsFirstOccurrenceOrder(s, 0, k);
    }
  }

  /** A sequence without repeats is left as it is. */
  lemma {:induction false} DedupOfDistinct(s: seq<string>)
    requires NoDuplicates(s)
    ensures Dedup(s) == s
    decreases |s|
  {
    if s != [] {
      var n := |s| - 1;
      assert NoDuplicates(s[..n]);
      DedupOfDistinct(s[..n]);
      assert s[n] !in s[..n];
      assert s == s[..n] + [s[n]];
    }
  }

  /** The candidate list of a task: its priority chain, expanded, deduplicated. */
  function FallbackChain(taskType: string): seq<string>
  {
    Dedup(Expand(PriorityChain(taskType)))
  }

  /** Expand every entry of `chain`, in order, with its aliases. */
  method ExpandAliases(chain: seq<string>) returns (expanded: seq<string>)
    ensures expanded == Expand(chain)
  {
    expanded := [];
    for i := 0 to |chain|
      invariant expanded == Expand(chain[..i])
    {
      assert chain[..i + 1][..i] == chain[..i];
      expanded := expanded + [chain[i]];
      expanded := expanded + AliasesOf(chain[i]);
    }
    assert chain[..|chain|] == chain;
  }

  /** Drop repeated entries, keeping each where it first occurs. */
  method DedupPreservingOrder(expanded: seq<string>) returns (ordered: seq<string>)
    ensures ordered == Dedup(expanded)
  {
    var seen: set<string> := {};
    ordered := [];
    for j := 0 to |expanded|
      invariant ordered == Dedup(expanded[..j])
      invariant forall m :: m in seen <==> m in ordered
    {
      assert expanded[..j + 1][..j] == expanded[..j];
      var m := expanded[j];
      if m !in seen {
        seen := seen + {m};
        ordered := ordered + [m];
      }
    }
    assert expanded[..|expanded|] == expanded;
  }

  /**
   * Build the candidate list of a task: the family's priority chain, every
   * entry expanded with its aliases, repeats dropped keeping first occurrences.
   */
  method ModelFallbackChain(taskType: string) returns (ordered: seq<string>)
    ensures ordered == FallbackChain(taskType)
    ensures NoDuplicates(ordered)
    ensures ordered != [] && ordered[0] == PriorityChain(taskType)[0]
  {
    var chain := PriorityChain(taskType);
    var expanded := ExpandAliases(chain);
    ordered := DedupPreservingOrder(expanded);
    FallbackChainShape(taskType);
  }

  /**
   * The candidate list has no repeats, holds exactly the expanded entries,
   * and starts with the first entry of the priority chain.
   */
  lemma FallbackChainShape(taskType: string)
    ensures NoDuplicates(FallbackChain(taskType))
    ensures forall m :: m in FallbackChain(taskType) <==> m in Expand(PriorityChain(taskType))
    ensures FallbackChain(taskType) != [] && FallbackChain(taskType)[0] == PriorityChain(taskType)[0]
  {
    var chain := PriorityChain(taskType);
    ExpandCons(chain[0], chain[1..]);
    assert [chain[0]] + chain[1..] == chain;
    DedupHead(Expand(chain));
  }

  /** The candidate list of the orchestration family. */
  const OrchestrationCandidates: seq<string> :=
    ["google-fast", "google-fast-alt", "sonar", "sonar-alt-1", "sonar-alt-2", "sonar-reasoning", "sonar-reasoning-alt"]

  /** The candidate list of the reasoning family. */
  const ReasoningCandidates: seq<string> :=
    ["google-pro-reasoning", "google-pro-reasoning-alt", "sonar-reasoning", "sonar-reasoning-alt", "sonar", "sonar-alt-1", "sonar-alt-2"]

  /** The candidate list of the code family. */
  const CodeCandidates: seq<string> :=
    ["google-code", "google-code-alt", "claude-3.5-sonnet", "sonar-reasoning", "sonar-reasoning-alt"]

  /** The candidate list of a task outside every family. */
  const UnroutedCandidates: seq<string> := ["sonar", "sonar-alt-1", "sonar-alt-2"]

  /** The orchestration chain expands to its candidate list, which has no repeats. */
  lemma ExpandedOrchestrationChain()
    ensures Expand(ModelPriorities["orchestration"]) == OrchestrationCandidates
    ensures NoDuplicates(OrchestrationCandidates)
  {
    ExpandCons("google-fast", ["sonar", "sonar-reasoning"]);
    ExpandCons("sonar", ["sonar-reasoning"]);
    ExpandCons("sonar-reasoning", []);
  }

  /** The reasoning chain expands to its candidate list, which has no repeats. */
  lemma ExpandedReasoningChain()
    ensures Expand(ModelPriorities["reasoning"]) == ReasoningCandidates
    ensures NoDuplicates(ReasoningCandidates)
  {
    ExpandCons("google-pro-reasoning", ["sonar-reasoning", "sonar"]);
    ExpandCons("sonar-reasoning", ["sonar"]);
    ExpandCons("sonar", []);
  }

  /** The code chain expands to its candidate list, which has no repeats. */
  lemma ExpandedCodeChain()
    ensures Expand(ModelPriorities["code"]) == CodeCandidates
    ensures NoDuplicates(CodeCandidates)
  {
    ExpandCons("google-code", ["claude-3.5-sonnet", "sonar-reasoning"]);
    ExpandCons("claude-3.5-sonnet", ["sonar-reasoning"]);
    ExpandCons("sonar-reasoning", []);
  }

  /** The default model alone expands to "sonar" and its two aliases. */
  lemma ExpandedDefaultChain()
    ensures Expand([DefaultModel]) == UnroutedCandidates
    ensures NoDuplicates(UnroutedCandidates)
  {
    ExpandCons("sonar", []);
  }

  /**
   * The four candidate lists the tables can produce, one per family; none of
   * them loses an entry to deduplication.
   */
  lemma FallbackChainByFamily(taskType: string)
    ensures FamilyOf(taskType) == Orchestration ==> (FallbackChain(taskType) == OrchestrationCandidates)
    ensures FamilyOf(taskType) == Reasoning ==> (FallbackChain(taskType) == ReasoningCandidates)
    ensures FamilyOf(taskType) == Code ==> (FallbackChain(taskType) == CodeCandidates)
    ensures FamilyOf(taskType) == Unrouted ==> (FallbackChain(taskType) == UnroutedCandidates)
  {
    ExpandedOrchestrationChain();
    ExpandedReasoningChain();
    ExpandedCodeChain();
    ExpandedDefaultChain();
    DedupOfDistinct(OrchestrationCandidates);
    DedupOfDistinct(ReasoningCandidates);
    DedupOfDistinct(CodeCandidates);
    DedupOfDistinct(UnroutedCandidates);
    if FamilyOf(taskType) == Unrouted {
      UnroutedChainIsSonar(taskType);
    }
  }

  /** A handoff task belongs to no family, so only "sonar" and its aliases are tried. */
  lemma HandoffFallbackChain(task: string)
    requires task == "handoff"
    ensures FallbackChain(task) == ["sonar", "sonar-alt-1", "sonar-alt-2"]
  {
    HandoffIsUnrouted(task);
    FallbackChainByFamily(task);
  }

  /** "handoff" holds none of the family keywords. */
  lemma HandoffIsUnrouted(task: string)
    requires task == "handoff"
    ensures FamilyOf(task) == Unrouted
  {
    assert Lower(task) == task by {
      assert IsLower(task);
      LowerOfLower(task);
    }
    MissingCharExcludes(task, "orchestration", 'r');
    NoReasoningKeywordInHandoff(task);
    NoCodeKeywordInHandoff(task);
  }

  /** No reasoning-family keyword occurs in "handoff". */
  lemma NoReasoningKeywordInHandoff(task: string)
    requires task == "handoff"
    ensures !AnyContained(ReasoningKeywords, task)
  {
    MissingCharExcludes(task, "design", 'e');
    MissingCharExcludes(task, "architecture", 'r');
    MissingCharExcludes(task, "reasoning", 'r');
    MissingCharExcludes(task, "plan", 'p');
    MissingCharExcludes(task, "blueprint", 'b');
  }

  /** No code-family keyword occurs in "handoff". */
  lemma NoCodeKeywordInHandoff(task: string)
    requires task == "handoff"
    ensures !AnyContained(CodeKeywords, task)
  {
    MissingCharExcludes(task, "code", 'c');
    MissingCharExcludes(task, "implement", 'i');
    MissingCharExcludes(task, "debug", 'e');
    MissingCharExcludes(task, "fix", 'i');
    MissingCharExcludes(task, "refactor", 'r');
  }

  // ---------------------------------------------------------------------------
  // get_llm_with_fallback
  // ---------------------------------------------------------------------------

  /** The failure a client factory reported for one candidate model. */
  datatype ModelError<E> = ModelError(model: string, error: E)

  /** Every candidate failed: the task and one error per candidate, in order. */
  datatype FallbackFailure<E> = AllFallbacksFailed(taskType: string, errors: seq<ModelError<E>>)

  /**
   * The outcome of trying `candidates` in order: on success, the factory
   * failed on every candidate called before the last, built `client` from the
   * last, and was called on no later candidate; on failure, it was called on
   * every candidate and failed on each, with one error per candidate in order.
   */
  ghost predicate TriedInOrder<C, E>(candidates: seq<string>, clientFactory: string -> Result<C, E>,
                                     r: Result<C, seq<ModelError<E>>>, calls: seq<string>)
  {
    match r
    case Success(client) =>
      && 0 < |calls| <= |candidates|
      && calls == candidates[..|calls|]
      && clientFactory(calls[|calls| - 1]) == Success(client)
      && forall j :: 0 <= j < |calls| - 1 ==> clientFactory(calls[j]).Failure?
    case Failure(errors) =>
      && calls == candidates
      && |errors| == |candidates|
      && forall j :: 0 <= j < |candidates| ==>
           clientFactory(candidates[j]).Failure? && errors[j] == ModelError(candidates[j], clientFactory(candidates[j]).error)
  }

  /**
   * Call the factory on each candidate in order and return the first client
   * it builds, or the errors of all candidates.
   */
  method TryCandidates<C, E>(candidates: seq<string>, clientFactory: string -> Result<C, E>)
    returns (r: Result<C, seq<ModelError<E>>>, ghost calls: seq<string>)
    ensures r.Success? <==> exists k :: 0 <= k < |candidates| && clientFactory(candidates[k]).Success?
    ensures TriedInOrder(candidates, clientFactory, r, calls)
  {
    var errors: seq<ModelError<E>> := [];
    calls := [];
    for i := 0 to |candidates|
      invariant calls == candidates[..i]
      invariant |errors| == i
      invariant forall j :: 0 <= j < i ==>
        clientFactory(candidates[j]).Failure? && errors[j] == ModelError(candidates[j], clientFactory(candidates[j]).error)
    {
      calls := calls + [candidates[i]];
      match clientFactory(candidates[i]) {
        case Success(client) =>
          r := Success(client);
          return;
        case Failure(e) =>
          errors := errors + [ModelError(candidates[i], e)];
      }
    }
    r := Failure(errors);
  }

  /**
   * Build a client for the task by trying the candidates of its fallback
   * chain in order; when all fail, report the task with every error.
   */
  method GetLlmWithFallback<C, E>(taskType: string, clientFactory: string -> Result<C, E>)
    returns (r: Result<C, FallbackFailure<E>>, ghost calls: seq<string>)
    ensures r.Success? <==>
      exists k :: 0 <= k < |FallbackChain(taskType)| && clientFactory(FallbackChain(taskType)[k]).Success?
    ensures r.Failure? ==> r.error.taskType == taskType && r.error.errors != []
    ensures calls != [] && calls[0] == PriorityChain(taskType)[0]
    ensures TriedInOrder(FallbackChain(taskType), clientFactory,
                         if r.Success? then Success(r.value) else Failure(r.error.errors), calls)
  {
    var chain := ModelFallbackChain(taskType);
    var outcome;
    FallbackChainShape(taskType);
    outcome, calls := TryCandidates(chain, clientFactory);
    match outcome {
      case Success(client) => r := Success(client);
      case Failure(errors) => r := Failure(AllFallbacksFailed(taskType, errors));
    }
  }
}
