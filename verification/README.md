# Kortecx: a verified model

A Dafny model of the core of Kortecx: the chain compiler of its TypeScript SDK, the resumable
event tail between client and gateway, the envelopes and bundles in which Apps travel, and the
audit sink. Nothing here runs the system; the model states what its code computes, and proves
what its documentation promises.

**Chains.** An expression such as `a > [b & c@tool] | d` describes a graph of tasks. It goes
through a tokenizer, a four-level recursive-descent parser that registers nodes, edges and
tool grants as it reads, resolution against a map of tasks, edge canonicalization and a cycle
check. `ChainSyntax`, `ChainGrammar` and `ChainMeaning` give the language and its meaning
independently of the parser; `ChainParser` is the parser as it runs, an object whose methods
advance through the tokens; `Graph` holds the two graph algorithms; `ChainLowering` puts the
compiler together, and `ChainTexts` says what short texts compile to. `Combinators` and `DslParity` are the second way to write the same graph,
as nested `seq` and `par` objects, and its agreement with the text. `Flows` and `FlowBuilder`
are the third, a fluent builder with orchestration patterns. `Blueprint` is the portable
artifact a chain is exported to. `SeriesParallel` says which graph the user gets.

**Events.** `EventStream` is the server: a journal that grows, frames cut from it, a follower
with a bounded queue. `EventTail` and `WaitEvents` are two clients of it, as state machines in
which journal appends, server steps, connection drops and client steps interleave freely.
`SocketBridge` turns socket callbacks into an asynchronous iteration.

**Envelopes.** `Serde` is the derived JSON encoding of records with omitted empty fields, over
JSON trees, for any record type; `EnvelopeTypes` and `EnvelopeCodec` apply it to the App and
Workflow records; `Envelope` and `Workflow` validate, read and canonicalize them.
`EnvelopePlaces` spells out where each field stands in a document, `EnvelopeFields` proves that
readers and writers agree with it, and `EnvelopeRules` what is accepted. `ContentRefs`
and `TreeRefs` compute the content closure on the record and on the tree. `CanonicalJson` is
the key sort of the TypeScript SDK, `Handles` the catalog handles, `Base64` the hand-written
codec, `AppBundles` the bundle document with its two writers and readers.

**Audit.** `AuditSink` is the counter and the locked append, under any interleaving of threads.

`Lists`, `Sorting`, `Decimals` and `Utf16`, the order of JavaScript's default sort, hold what
several modules share.

Some behaviour differs from what one would expect, or from the documentation; the model
follows the code and states the exact condition:

- tagging a handle drops the App bindings of its task (`BindingsSurvive`);
- an artifact step with an empty `args` map imports differently from its folded form
  (`ArgsFormsAgree`), although both forms are documented as equivalent;
- a review loop over an existing reviewer, of any shape, lowers only with one round
  (`ReusedReviewer`);
- budget fields beside the params are ignored except on a model step with tools
  (`BudgetFormsAgree`);
- subscribing beyond the head of the journal moves the cursor back, so that following repeats
  old deltas, and a global tail can attribute deltas to the wrong run (`ResumeExactIff`);
- a socket error whose value is null ends the iteration as if it had closed (`EndsByRaising`);
- a default handle can be cut right after a dot or a dash (`DefaultHandleValid`);
- a bundle with an explicit null source digest is read by Rust and refused by TypeScript
  (`ReadersAgree`); looser types and base64 are read by TypeScript only (`OnlyTypeScript`);
- an envelope that starts with a byte-order mark loses it in TypeScript (`SameDocument`);
- sorted keys come out in JavaScript's order, not always that of Rust (`KeysAscend`);
- text and combinators give the same chain only if no task stands under two handles
  (`ParityNeedsDistinctTasks`).

A task object is modelled as its fields with an identity number. JavaScript objects are maps of
their own keys. UTF-8, JSON text, hexadecimal decoding of body ids, JavaScript string coercion
and the check of a connection's descriptor and credential name are parameters; of the text
codecs it is only assumed that the strict decoder inverts the encoder and that `TextDecoder`
differs from it by dropping a leading byte-order mark, and of the coercion that it keeps
strings and spells out null.

## Model

| member | source | states |
|---|---|---|
| `ChainSyntax.Tokenize` | bindings/typescript/src/chains.ts:502-535 | the loop returns the tokens of the expression, or fails on a character no token starts with |
| `ChainSyntax.TokenizerExact` | bindings/typescript/src/chains.ts:502-535 | a text tokenizes to a token list if and only if it is that list written with some legal choice of gaps; two adjacent names need a gap |
| `ChainSyntax.LexOfRender` | docs/site/docs/chains/dsl-reference.md:30-33 | for every token list and every legal choice of white space, printing then tokenizing gives the tokens back |
| `ChainSyntax.RenderOfLex` | bindings/typescript/src/chains.ts:502-535 | whatever tokenizes is a rendering of its tokens |
| `ChainGrammar.ParserExact` | docs/site/docs/chains/dsl-reference.md:24-30 | parsing yields a tree if and only if the tree derives from the grammar and its sentence is the token list; so each sentence has exactly one tree |
| `ChainGrammar.AcceptsIffScans` | bindings/typescript/src/chains.ts:581-678 | a token list is accepted exactly when a one-pass scan with a bracket counter accepts it, and the scan never looks at which operator it reads |
| `ChainGrammar.ParseOfPrint` | bindings/typescript/src/chains.ts:489-686 | printing any tree with the brackets precedence needs, then tokenizing and parsing, gives the bracketed tree back |
| `ChainMeaning.MeanWellFormed` | bindings/typescript/src/chains.ts:595-686 | entries, exits and edge ends are handles of the expression, and entries and exits are never empty |
| `ChainMeaning.GrantsMeaning` | bindings/typescript/src/chains.ts:660-678 | the tags of a handle are those of all its occurrences in writing order, without repeats |
| `ChainMeaning.OrderMeaning` | bindings/typescript/src/chains.ts:571-579 | the node order lists each handle once, in the order of first appearance |
| `ChainMeaning.ExtendJoin` | bindings/typescript/src/chains.ts:595-629 | reading one operand after the other and linking them records what the joined expression means, whatever was registered before |
| `ChainMeaning.Associative` | docs/site/docs/chains/dsl-reference.md:39-47 | `>` and the parallel merge are associative on whole meanings, with the same node order, grants, entries and exits and the same set of edges |
| `ChainMeaning.SameJoin` | bindings/typescript/src/chains.ts:615-628 | operands with interchangeable meanings give interchangeable results |
| `ChainMeaning.BracketSame` | bindings/typescript/src/chains.ts:631-657 | brackets add nothing beyond grouping: the bracketed tree means the same |
| `ChainMeaning.SameDenote` | bindings/typescript/src/chains.ts:595-655 | interchangeable expressions register the same nodes in the same order, the same grants and the same set of edges |
| `ChainMeaning.BarIsAmp` | bindings/typescript/src/chains.ts:595-613 | replacing every bar operator by `&` keeps acceptance, and keeps nodes, grants and the set of edges, although the tree changes |
| `ChainMeaning.PrintThenParse` | bindings/typescript/src/chains.ts:489-686 | printing any tree with any legal gaps and reading it back registers exactly what the tree denotes |
| `ChainParser.Parser.constructor` | bindings/typescript/src/chains.ts:549-560 | a fresh parser stands at the first token with nothing registered |
| `ChainParser.Parser.Ref` | bindings/typescript/src/chains.ts:571-579 | a handle is registered once, at the end of the order |
| `ChainParser.Parser.ParseAll` | bindings/typescript/src/chains.ts:581-593 | the object accepts exactly what the grammar accepts, and then its fragment and registry are those of the tree |
| `ChainParser.Parser.OrExpr` | bindings/typescript/src/chains.ts:595-603 | reads what the grammar reads at this level and extends the registry by its meaning |
| `ChainParser.Parser.AndExpr` | bindings/typescript/src/chains.ts:605-613 | the same for `&` |
| `ChainParser.Parser.SeqExpr` | bindings/typescript/src/chains.ts:615-629 | the same for `>` |
| `ChainParser.Parser.AddEdges` | bindings/typescript/src/chains.ts:620-624 | an edge from every exit of the left fragment to every entry of the right one, in order |
| `ChainParser.Parser.Atom` | bindings/typescript/src/chains.ts:631-657 | reads a handle with its tags, or a bracketed expression; empty brackets fail |
| `ChainParser.Parser.TakeGrants` | bindings/typescript/src/chains.ts:660-678 | tags are merged into those the handle already has, without repeats; a handle without tags gets no entry |
| `ChainParser.MergePar` | bindings/typescript/src/chains.ts:680-686 | entries and exits are concatenated and deduplicated |
| `Lists.DedupList` | bindings/typescript/src/chains.ts:402-412 | the loop keeps each element once, in the order of first appearance |
| `Lists.DedupMeaning` | bindings/typescript/src/chains.ts:689-699 | the result holds the same elements, each once, in the order of first appearance |
| `Graph.CanonicalizeEdges` | bindings/typescript/src/chains.ts:731-743 | the result is the strictly ascending list of the distinct edges |
| `Sorting.SortDependsOnSet` | bindings/typescript/src/chains.ts:731-743 | two edge lists have the same canonical form exactly when they have the same set of edges: order and multiplicity do not matter |
| `Graph.AssertAcyclic` | bindings/typescript/src/chains.ts:785-823 | for every node count and in-range edge list, the queue loop passes if and only if a topological numbering exists, if and only if no closed walk exists |
| `Graph.NumberingIffNoCycle` | bindings/typescript/src/chains.ts:785-823 | a graph has a topological numbering exactly when it has no closed walk |
| `Graph.Finish` | bindings/typescript/src/chains.ts:806-819 | taking a node off the queue lowers the in-degree of its children and enqueues exactly those that reach zero, each at most once |
| `SeriesParallel.ReachesIffBefore` | bindings/typescript/src/chains.ts:595-628 | when every handle occurs once, one handle leads to another in the edges exactly when the lowest operator above both is `>` with the first on its left |
| `SeriesParallel.EntriesAreSources` | bindings/typescript/src/chains.ts:595-628 | and then the entries are exactly the handles without an incoming edge |
| `SeriesParallel.ExitsAreSinks` | bindings/typescript/src/chains.ts:595-628 | and the exits exactly those without an outgoing edge |
| `SeriesParallel.ToExit` | bindings/typescript/src/chains.ts:615-628 | in every expression every handle leads to some exit |
| `SeriesParallel.FromEntry` | bindings/typescript/src/chains.ts:615-628 | in every expression every handle is led to from some entry |
| `ChainLowering.WithGrants` | bindings/typescript/src/chains.ts:762-782 | a tagged model task becomes a copy that keeps kind, model, prompt, params, budgets and local tools, whose tools are exactly its own plus the tags, each of its own at its version and each new one at version 1, without App bindings; any other kind is an error |
| `ChainLowering.ResolveMeaning` | bindings/typescript/src/chains.ts:826-842 | in every expression a handle becomes its own task if it is never tagged, else such a copy for exactly its tags; only a model task can be tagged, and an unknown handle is an error |
| `ChainLowering.GrantedTwice` | bindings/typescript/src/chains.ts:762-782 | granting twice is granting the tags together, and granting the same set of tags again changes nothing |
| `ChainLowering.BindingsSurvive` | bindings/typescript/src/chains.ts:762-782 | an App binding authored on a task reaches its node if and only if its handle is never tagged: the granted copy drops the four binding lists |
| `ChainLowering.TagDropsBindings` | bindings/typescript/src/chains.ts:762-782 | any model task with a binding keeps it untagged and loses it under one tag |
| `ChainLowering.ResolveAllMeaning` | bindings/typescript/src/chains.ts:826-854 | resolution succeeds node by node, or fails with the error of the earliest failing handle |
| `ChainLowering.LowerParse` | bindings/typescript/src/chains.ts:826-854 | nodes are the resolved tasks in order, and each edge becomes the pair of its handles' positions |
| `ChainLowering.ArcsMeaning` | bindings/typescript/src/chains.ts:844-852 | positions are linked exactly when their handles are |
| `ChainLowering.ChainOf` | bindings/typescript/src/chains.ts:1169-1178 | edges are canonicalized and the chain is refused exactly when they have no topological numbering |
| `ChainLowering.CompileChain` | bindings/typescript/src/chains.ts:1191-1196 | the whole compiler: tokenizing, parsing, resolving and the cycle check, with the error of the first stage that fails |
| `ChainLowering.SameLower` | bindings/typescript/src/chains.ts:1169-1196 | interchangeable expressions compile to the same chain or the same error |
| `ChainLowering.CompileOfPrint` | bindings/typescript/src/chains.ts:1191-1196 | compiling any printing of a tree gives the chain of the tree |
| `ChainLowering.CompileBlindToBar` | bindings/typescript/src/chains.ts:595-613 | a text whose tokens differ only in bar against `&` compiles to the same chain or error |
| `ChainLowering.ReachAgrees` | bindings/typescript/src/chains.ts:844-852 | one node leads to another in the compiled edges exactly when its handle does in the expression |
| `ChainLowering.RefusedIffCyclic` | bindings/typescript/src/chains.ts:785-823 | an expression whose handles resolve is refused exactly when some handle leads back to itself |
| `ChainLowering.LowerShape` | bindings/typescript/src/chains.ts:826-854 | a compiled chain has one node per handle, the canonical edges, and the given seed and context |
| `ChainLowering.LinearNeverRefused` | bindings/typescript/src/chains.ts:785-823 | an expression that uses each handle once never fails the cycle check |
| `ChainLowering.SeriesParallelChain` | bindings/typescript/src/chains.ts:595-628 | for such an expression the nodes are the handles in writing order, and reachability in the compiled chain is the series-parallel order of the text |
| `ChainTexts.OneCharacter` | bindings/typescript/src/chains.ts:498-535 | what each single character is to the tokenizer: white space, one of the six symbols, a handle, or an error |
| `ChainTexts.HandleGoesOn` | bindings/typescript/src/chains.ts:498-528 | a character goes on with a handle if and only if it is a letter, a digit, an underscore or a dash |
| `ChainTexts.ArrowText` | bindings/typescript/src/chains.ts:615-629 | for any two known handles, the text `a>b` compiles to their two tasks with the edge from the first to the second |
| `ChainTexts.MergeText` | bindings/typescript/src/chains.ts:595-613 | the texts with `&` and with the bar compile to the two tasks without an edge |
| `ChainTexts.TagText` | bindings/typescript/src/chains.ts:660-678 | `a@t` compiles to one granted copy of the task |
| `ChainTexts.TighterText` | docs/site/docs/chains/dsl-reference.md:39-47 | in `a&b>c` only the second task leads to the third |
| `ChainTexts.GroupText` | bindings/typescript/src/chains.ts:631-657 | in `[a&b]>c` both lead to the third |
| `Combinators.NodeAccumulator.constructor` | bindings/typescript/src/chains.ts:375-379 | an accumulator starts empty |
| `Combinators.NodeAccumulator.Register` | bindings/typescript/src/chains.ts:380-386 | a task object is a node once, however often it is used |
| `Combinators.NodeAccumulator.Eval` | bindings/typescript/src/chains.ts:393-400 | evaluating a fragment appends its nodes and edges and returns its entries and exits |
| `Combinators.NodeAccumulator.FoldSeq` | bindings/typescript/src/chains.ts:447-471 | each part is linked to the one before it, exits to entries |
| `Combinators.NodeAccumulator.FoldPar` | bindings/typescript/src/chains.ts:473-482 | entries and exits of all parts, deduplicated once at the end |
| `Combinators.FragWellFormed` | bindings/typescript/src/chains.ts:393-482 | every fragment the constructors allow has entries and exits among its nodes |
| `Combinators.ChainFrom` | bindings/typescript/src/chains.ts:1209-1220 | lowers a fragment to the chain of its meaning |
| `Combinators.FSameLower` | bindings/typescript/src/chains.ts:1209-1220 | fragments with interchangeable meanings lower to the same chain |
| `DslParity.CombinatorsMatchDsl` | bindings/typescript/src/chains.ts:1198-1220 | for every `seq`/`par` fragment over handles, and every task map that knows them and is injective on them, the text with the same shape compiles to the same chain or error as the fragment, although one side deduplicates at every merge and the other once |
| `DslParity.DslMatchesCombinators` | bindings/typescript/src/chains.ts:1198-1220 | every expression, tags included, compiles in any writing to the same chain or error as the combinators over the task objects its handles resolve to, when those objects are distinct |
| `DslParity.ToExprAgrees` | bindings/typescript/src/chains.ts:447-482 | the n-ary folds and the nested binary operators have the same meaning |
| `DslParity.FromExprAgrees` | bindings/typescript/src/chains.ts:595-628 | and so have the binary operators and their two-part folds, tags aside |
| `DslParity.MapFragMean` | bindings/typescript/src/chains.ts:380-391 | renaming the leaves injectively renames the whole meaning |
| `DslParity.MapFragCarries` | bindings/typescript/src/chains.ts:380-391 | renaming them by any function renames the node occurrences one by one and keeps every entry, exit and edge |
| `DslParity.ResolvedStands` | bindings/typescript/src/chains.ts:762-782 | whenever an expression resolves, its granted copies are such task objects, and they are distinct if the authored ones are |
| `DslParity.UntaggedMatches` | bindings/typescript/src/chains.ts:1198-1220 | an untagged expression compiles like the combinators over the authored objects themselves |
| `DslParity.ParityNeedsDistinctTasks` | bindings/typescript/src/chains.ts:380-391 | an expression and the combinators over its resolved tasks lower to the same result if and only if no task object stands under two handles, or the expression is refused as a cycle: text identifies nodes by handle, combinators by object |
| `DslParity.TwoHandlesOneTask` | bindings/typescript/src/chains.ts:380-391 | for any two handles of one task, `a & b` gives two nodes in text and not the same chain in combinators |
| `Flows.FlowIsFlatSeq` | bindings/typescript/src/flow.ts:274-277 | the left nesting built by repeated `append` lowers like one flat `seq` of the steps |
| `Flows.NestFlat` | bindings/typescript/src/flow.ts:274-277 | and has the same meaning as it |
| `Flows.FragForward` | bindings/typescript/src/chains.ts:447-482 | in every fragment each edge leads from an earlier occurrence to a later one |
| `Flows.FreshLowers` | bindings/typescript/src/chains.ts:1209-1220 | a fragment that uses no task twice always lowers, to its tasks in writing order and exactly its edges |
| `Flows.RepeatRefused` | bindings/typescript/src/chains.ts:785-823 | the same fragment twice in a row is refused as a cycle, whatever its shape and whatever stands around it |
| `Flows.EntryBelowExit` | bindings/typescript/src/chains.ts:447-482 | in every fragment, any height that rises along the edges puts each entry at or below some exit |
| `Flows.PathShape` | bindings/typescript/src/flow.ts:601-614 | n fresh steps in sequence lower to a path: exactly the edges from each node to the next |
| `Flows.SwarmShape` | bindings/typescript/src/flow.ts:479-484 | for any n, `[a & …] > g` lowers to n nodes each with one edge to the gather node and nothing else |
| `Flows.SupervisorShape` | bindings/typescript/src/flow.ts:533-554 | `p > [a & …] > g` lowers to a planner with an edge to every worker, and every worker to the gather node, and nothing else |
| `FlowBuilder.Flow.constructor` | bindings/typescript/src/flow.ts:270-272 | a flow starts without steps |
| `FlowBuilder.Flow.Append` | bindings/typescript/src/flow.ts:274-277 | the fragment stays the left nesting of the steps appended so far |
| `FlowBuilder.Flow.AgentStep` | bindings/typescript/src/flow.ts:285-301 | appends one model step that consumes the pending image; an unknown reasoning mode appends nothing |
| `FlowBuilder.Branches` | bindings/typescript/src/flow.ts:432-459 | participants resolve left to right into existing fragments and new tasks with new identities, exactly when every one of them resolves |
| `FlowBuilder.Flow.Fan` | bindings/typescript/src/flow.ts:479-484 | a non-empty list that resolves becomes one parallel step of exactly those fragments; otherwise no step is added |
| `FlowBuilder.Flow.Swarm` | bindings/typescript/src/flow.ts:479-484 | adds the parallel step and its gather step, or nothing |
| `FlowBuilder.Flow.Consensus` | bindings/typescript/src/flow.ts:571-585 | adds the voters and a judge or a majority vote, or nothing |
| `FlowBuilder.Flow.Supervisor` | bindings/typescript/src/flow.ts:533-554 | adds planner, workers and gather; reserved options are refused before anything is added, and a worker that does not resolve leaves the planner behind |
| `FlowBuilder.Flow.ReviewLoop` | bindings/typescript/src/flow.ts:601-614 | adds the worker and one review step per round; a worker that does not resolve leaves nothing, a reviewer that does not leaves the worker behind |
| `FlowBuilder.Flow.ToChain` | bindings/typescript/src/flow.ts:637-642 | an empty flow is an error; any other lowers like the flat `seq` of its steps |
| `FlowBuilder.ReviewLoopIsPath` | bindings/typescript/src/flow.ts:601-614 | with fresh steps, for any round count, the result is a path of rounds + 1 nodes |
| `FlowBuilder.ReusedReviewer` | bindings/typescript/src/flow.ts:601-614 | with a reviewer that exists already, of any shape, after any steps and with any worker, the loop lowers if and only if there is one round and that round lowers; with distinct tasks, if and only if there is one round; further rounds are always refused as a cycle |
| `FlowBuilder.WorkerAsReviewer` | bindings/typescript/src/flow.ts:601-614 | an existing step that reviews itself is refused in any number of rounds |
| `FlowBuilder.TwoStepReviewer` | bindings/typescript/src/flow.ts:601-614 | a reviewer of two steps lowers in one round and is refused in two |
| `FlowBuilder.SwarmIsStar` | bindings/typescript/src/flow.ts:479-484 | the steps `swarm` adds for any number of new participants lower to those participants and the gather step, with exactly one edge from each participant to it |
| `FlowBuilder.SupervisorIsDiamond` | bindings/typescript/src/flow.ts:533-554 | the steps `supervisor` adds lower to planner, workers and gather step, with exactly the edges from the planner to each worker and from each worker to the gather step |
| `FlowBuilder.SwarmOfPrompts` | bindings/typescript/src/flow.ts:432-436 | a swarm of prompts plans one bare model step per prompt, asked its prompt with the goal after it, and a gather step: the authored prompt, else the default one when synthesizing, else a pure step |
| `FlowBuilder.PlanMeaning` | bindings/typescript/src/flow.ts:432-459 | what each kind of participant becomes: an existing step itself, a prompt or an agent a new model step with its own model, tools, budgets and prompt; an empty flow is an error |
| `FlowBuilder.ModelSpecMeaning` | bindings/typescript/src/chains.ts:272-312 | a model task carries its options each in its own field, named tools at version 1 and versioned ones as given; an unknown reasoning mode, and only that, is refused |
| `FlowBuilder.TrimMeaning` | bindings/typescript/src/flow.ts:199-201 | joining a goal trims white space off both ends and nothing else |
| `FlowBuilder.DefaultsSay` | bindings/typescript/src/flow.ts:546-552 | a supervisor without a planner asks the default question with the goal; a reviewer is never told the goal |
| `FlowBuilder.MadeDistinct` | bindings/typescript/src/flow.ts:432-459 | steps made while placing a plan are all different tasks |
| `Blueprint.Builder.Build` | bindings/typescript/src/blueprints.ts:96-119 | builds if and only if every body id decodes, else with the error of the first that does not; each wire step then carries its step's fields in the same place, and seed, edges, mode and context go through unchanged |
| `Blueprint.BuildChain` | bindings/typescript/src/chains.ts:938-966 | building refuses the first step that carries an App binding, naming the lists, and otherwise gives the request of the chain |
| `Blueprint.RequestMeaning` | bindings/typescript/src/chains.ts:174-185 | the request of a chain holds every node in order with its kind, model, prompt and tools, no body, and its params; on a model step with tools, and there only, `max_turns` and `max_tool_calls` are the decimals of its two budgets where it has them, and every other param is untouched; edges are data edges |
| `Decimals.DecimalReads` | bindings/typescript/src/chains.ts:178-181 | a written number has no leading zero and its digits read back as the number |
| `Decimals.ReadsDecimal` | bindings/typescript/src/chains.ts:178-181 | and every such digit text is the writing of its value |
| `Blueprint.NamedMeaning` | bindings/typescript/src/chains.ts:1121-1133 | a refusal names exactly the binding lists that are not empty |
| `Blueprint.FromBlueprint` | bindings/typescript/src/chains.ts:1029-1046 | importing refuses the first step that names a binding, and otherwise gives the request of the artifact |
| `Blueprint.ImportMeaning` | bindings/typescript/src/chains.ts:1107-1166 | for a hand-written artifact: each step keeps its kind, or is a model step if it names a model or a prompt, else a tool step if it has tools, else pure; its arguments go under their own key, its budgets as above and its body decoded; an edge is a control edge exactly when it says so; seed, mode and context have their defaults |
| `Blueprint.FirstFlag` | bindings/typescript/src/chains.ts:1121-1146 | the step named in a refusal is the first that carries a binding |
| `Blueprint.BlueprintRoundTrip` | bindings/typescript/src/chains.ts:968-1046 | for every chain, importing the exported artifact is building the chain: the same request, or the same refusal at the same step |
| `Blueprint.ExportImportStep` | bindings/typescript/src/chains.ts:979-1010 | a step exported with empty fields omitted is imported unchanged, and its bindings are the ones it had |
| `Blueprint.ArgsFormsAgree` | bindings/typescript/src/chains.ts:1148-1166 | a step of any kind with separate arguments imports like the folded form if and only if the argument map is not empty or its encoding is already there: an empty map is dropped on import |
| `Blueprint.BudgetFormsAgree` | bindings/typescript/src/chains.ts:174-185 | budget fields import like budget entries inside the params if and only if the step is a model step with tools or holds those entries already: any other step ignores the fields |
| `EventStream.SurfacedSplit` | crates/kx-gateway-core/src/events.rs:82-135 | the deltas of a range are those of its parts, attribution included |
| `EventStream.SurfacedExact` | crates/kx-gateway-core/src/events.rs:284-345 | the deltas of a range are exactly its surfaced entries, in strictly increasing order, each with its own entry and run |
| `EventStream.StreamedKinds` | crates/kx-gateway-core/src/events.rs:284-343 | commits, failures, repudiations and staged effects of a range are streamed on both channels, registrations exactly on the global one, anything else on neither; a delta carries its entry's number and fact |
| `EventStream.AttributionMeaning` | crates/kx-gateway-core/src/events.rs:175-206 | a position belongs to the run of the latest registration at or before it, and to none if there is none |
| `EventStream.SurfacedGrows` | crates/kx-gateway-core/src/events.rs:82-135 | appending to the journal changes no earlier range |
| `EventStream.FramesForRange` | crates/kx-gateway-core/src/events.rs:215-265 | frames cover the range consecutively, within the size bound, and exactly the last is flagged; from beyond the head there is one empty frame at the head |
| `EventStream.Chunks` | crates/kx-gateway-core/src/events.rs:237-262 | cutting the deltas into chunks and moving the last frame to the head keeps that coverage |
| `EventStream.SeedRun` | crates/kx-gateway-core/src/events.rs:183-206 | the seed pass finds the run in force at the cursor |
| `EventStream.StepKeepsInStep` | crates/kx-gateway/src/live_tail.rs:96-332 | every step of the follower, with its bounded queue, overflow and shutdown, keeps what is sent and unsent consecutive from where the client stands |
| `EventStream.TakeKeepsInStep` | crates/kx-gateway/src/live_tail.rs:266-292 | taking a frame from the queue leaves the rest consecutive from that frame's end |
| `EventTail.NextKeeps` | bindings/typescript/src/events.ts:22-48 | every step of client, server and connection keeps the tail's invariant, and never takes back what was yielded |
| `EventTail.ExactlyOnce` | bindings/typescript/src/events.ts:22-80 | at every moment of every run that resumes within the journal, with any drops and re-subscriptions, the deltas yielded are those of the journal from `since`, in order, none lost, repeated or misattributed; between frames they are exactly those up to the cursor |
| `EventTail.NoneLost` | bindings/typescript/src/events.ts:22-80 | in every run within the journal, between frames every commit, failure, repudiation and staged effect up to the cursor has been yielded, and on the global channel every registration |
| `EventTail.CursorRewinds` | bindings/typescript/src/events.ts:30-40 | from any position beyond the head there is a run in which the cursor moves back to the head with nothing yielded, where a following tail then waits |
| `EventTail.FollowRepeats` | bindings/typescript/src/events.ts:30-46 | from any position beyond the head there is a run in which a following tail yields a delta numbered at or below that position |
| `EventTail.SeedGoesStale` | crates/kx-gateway-core/src/events.rs:183-206 | from any position beyond the head there is a run in which a global tail attributes a delta to the wrong run: the seed pass ran before the registrations it should have seen |
| `EventTail.SnapshotFaithful` | bindings/typescript/src/events.ts:22-48 | a snapshot of one run, wherever it starts and however the journal grows meanwhile, yields only the journal's own deltas above that position, rising, none skipped |
| `EventTail.ResumeExactIff` | bindings/typescript/src/events.ts:22-48 | in every run each yielded delta is the journal's delta of its number, above `since`, rising and none skipped, if and only if `since` is within the journal or the tail is a snapshot of one run |
| `EventTail.NeverTwice` | bindings/typescript/src/events.ts:22-80 | the sequence numbers of the yielded deltas strictly increase |
| `EventTail.SnapshotComplete` | bindings/typescript/src/events.ts:37-38 | a snapshot that stops at a boundary has yielded every surfaced entry that was in the journal when it subscribed |
| `EventTail.SnapshotSubscribesOnce` | bindings/typescript/src/events.ts:37-48 | in every run a snapshot whose subscription has ended, however it ended, is over |
| `EventTail.CatchUpResumes` | bindings/typescript/src/events.ts:40-46 | in every run, a tail that follows is never ended by a boundary, by the end of a stream or by a catch-up drop, wherever the drop arrives; and whenever it has lost its subscription, subscribing again at its cursor continues the run with what was yielded, exactly where the yielded deltas end |
| `WaitEvents.ScanFrame` | bindings/typescript/src/wait.ts:237-245 | scanning a frame returns the answer of its first commit or failure of the terminal Mote: failed for a failure, committed with its own result reference, absent when empty, for a commit; and nothing exactly when there is none |
| `WaitEvents.VerdictIsFirst` | bindings/typescript/src/wait.ts:219-260 | in every run, for every framing and drop pattern, an answer is that of the first journal entry that commits or fails the Mote; while the wait goes on no entry up to the cursor does |
| `WaitEvents.ThrowsOnlyOther` | bindings/typescript/src/wait.ts:249-255 | in every run the wait throws only on a code that is neither a catch-up drop nor a deadline nor a cancellation |
| `WaitEvents.VerdictsAgree` | bindings/typescript/src/wait.ts:219-260 | two runs over the same journal cannot settle on different answers |
| `SocketBridge.InOrderOnce` | bindings/typescript/src/events.ts:346-392 | under every interleaving, what was yielded followed by what is queued is what arrived, in order |
| `SocketBridge.NoLostWakeup` | bindings/typescript/src/events.ts:346-392 | a suspended consumer always has a live wake slot, and only while nothing is pending |
| `SocketBridge.DoneIsHistory` | bindings/typescript/src/events.ts:358-371 | the socket is done exactly when it was closed or reported an error |
| `SocketBridge.DrainsThenEnds` | bindings/typescript/src/events.ts:375-386 | in every history, once the socket is done a consumer that has not ended, running or resolved and not yet resumed, needs no further callback: it yields all that arrived, does not end before, and then ends as the last reported error says |
| `SocketBridge.EndsByRaising` | bindings/typescript/src/events.ts:381-388 | the iteration raises exactly when the last error reported was a value other than null |
| `SocketBridge.EndsForGood` | bindings/typescript/src/events.ts:375-391 | after the end nothing more is yielded |
| `AuditSink.NextKeeps` | crates/kx-audit/src/jsonl.rs:82-99 | every step of every thread keeps the accounts and the file |
| `AuditSink.Conservation` | crates/kx-audit/src/jsonl.rs:82-110 | in every run, written lines, drops and threads in flight add up to the numbers drawn, each number drawn is held and none is both written and dropped; the two 64-bit counters are these counts modulo 2^64 |
| `AuditSink.QuiescentGapFree` | crates/kx-audit/src/jsonl.rs:264-292 | once no thread is in flight and nothing was dropped, the numbers in the file are exactly 0 to N-1, each once |
| `AuditSink.WireSeqUnique` | crates/kx-audit/src/jsonl.rs:83 | the 64-bit numbers on two lines differ unless 2^64 events were recorded between them |
| `AuditSink.LinesStayWhole` | crates/kx-audit/src/jsonl.rs:86-89 | splitting the file at newlines gives the written lines back: concurrent writers never interleave inside one |
| `Base64.Encode` | bindings/typescript/src/appbundle.ts:30-42 | the loop writes the padded text of the bytes |
| `Base64.Decode` | bindings/typescript/src/appbundle.ts:44-61 | for every text the loop gives its whole bytes or the error; the output array is filled exactly and never overrun, although the accumulator wraps at 32 bits |
| `Base64.StepBits` | bindings/typescript/src/appbundle.ts:54-59 | no step reads a bit the 32-bit wrap could have changed |
| `Base64.GroupBits` | bindings/typescript/src/appbundle.ts:30-42 | group by group the sextets are the bits of the bytes, most significant first: four sextets and three bytes are the same 24-bit number, and a last group is shifted up to whole sextets |
| `Base64.RoundTrip` | bindings/typescript/src/appbundle.ts:30-61 | for every byte string, decoding the encoding gives it back |
| `Base64.CanonicalIffReencodes` | bindings/typescript/src/appbundle.ts:44-61 | a text that decodes is the encoding of what it decodes to if and only if it has no lone character, no stray trailing bits and exactly the padding its length calls for: the decoder drops the first two and ignores the third |
| `Base64.CharOfIsCharAt` | bindings/typescript/src/appbundle.ts:27-38 | the character of a value is the one at its place in the alphabet |
| `Base64.ValueOfIsIndexOf` | bindings/typescript/src/appbundle.ts:27-53 | the value of a character is its index in the alphabet, if it has one |
| `AppBundles.ToJson` | bindings/typescript/src/appbundle.ts:84-97 | the document holds the three required fields, the encoded blobs unless there are none, and the source digest if given |
| `AppBundles.FromJson` | bindings/typescript/src/appbundle.ts:102-126 | the loop checks every name and decodes every blob, or fails |
| `AppBundles.BundleRoundTrip` | bindings/typescript/src/appbundle.ts:84-126 | a bundle survives writing and reading if and only if its digests and refs are 64 lowercase hexadecimal digits and its envelope is UTF-8 without a byte-order mark |
| `AppBundles.SameDocument` | crates/kx-appbundle/src/lib.rs:97-121 | the Rust writer and the TypeScript writer give the same document if and only if the envelope is UTF-8 without a byte-order mark: TextDecoder drops the mark |
| `AppBundles.RustRoundTrip` | crates/kx-appbundle/src/lib.rs:97-158 | what the Rust writer accepts survives the Rust reader if and only if its digests and refs are 64 lowercase hexadecimal digits |
| `AppBundles.ReadersAgree` | crates/kx-appbundle/src/lib.rs:132-158 | whatever the Rust reader accepts, the TypeScript reader reads as the same bundle, exactly unless the document spells out a null source digest |
| `AppBundles.OnlyTypeScript` | bindings/typescript/src/appbundle.ts:102-126 | whatever the TypeScript reader accepts, the Rust reader reads as the same bundle if and only if digests and envelope are strings, `blobs` is absent or an object, and each blob has no stray bits and full padding; else it refuses |
| `AppBundles.NullBlobs` | bindings/typescript/src/appbundle.ts:115 | a document with null `blobs` is read by TypeScript and refused by Rust |
| `AppBundles.StrictExact` | crates/kx-appbundle/src/lib.rs:144-151 | the strict decoder accepts a text for bytes exactly when the encoder writes it |
| `Serde.EmptyIffDefault` | crates/kx-app/src/envelope.rs:196-406 | for every record type, the omit predicate holds exactly at the default value |
| `Serde.FieldWritten` | crates/kx-app/src/envelope.rs:542-610 | a written record holds exactly the fields that are not omitted, each with its own value |
| `Serde.RoundTripIff` | crates/kx-app/src/envelope.rs:542-610 | for every type and value, reading what was written gives it back if and only if no present option holds the JSON null |
| `Serde.WriteInjective` | crates/kx-app/src/envelope.rs:712-727 | on such values writing is injective |
| `Serde.ReadFaithful` | crates/kx-app/src/envelope.rs:712-716 | whatever a reader accepts is well typed and holds no present null |
| `EnvelopeCodec.ReferencesFits` | crates/kx-app/src/envelope.rs:155-193 | the reference rail is a value of its shape and loses nothing |
| `EnvelopeCodec.ReferencesEmpty` | crates/kx-app/src/envelope.rs:196-210 | `References::is_empty` holds exactly at the default: it misses no field |
| `EnvelopeCodec.ModelEmpty` | crates/kx-app/src/envelope.rs:225-229 | the same for the model axis |
| `EnvelopeCodec.ToolsEmpty` | crates/kx-app/src/envelope.rs:280-289 | the same for the tools axis, reach included |
| `EnvelopeCodec.ContextEmpty` | crates/kx-app/src/envelope.rs:305-313 | the same for the context axis |
| `EnvelopeCodec.GuardsEmpty` | crates/kx-app/src/envelope.rs:336-346 | the same for the guards |
| `EnvelopeCodec.SteeringEmpty` | crates/kx-app/src/envelope.rs:371-380 | the same for the whole steering config |
| `EnvelopeCodec.ReplayEmpty` | crates/kx-app/src/envelope.rs:400-406 | the same for the replay intent |
| `EnvelopeCodec.AppFits` | crates/kx-app/src/envelope.rs:542-610 | an App envelope is a value of its shape, and holds a present null exactly when its input schema or blueprint is one |
| `Envelope.Validate` | crates/kx-app/src/envelope.rs:825-939 | the sequence of checks accepts exactly the envelopes with a known tag that satisfy the lane's rules and every rail's, and tells a wrong tag from any other fault |
| `Envelope.EnvelopeRoundTrip` | crates/kx-app/src/envelope.rs:712-727 | an envelope survives encoding and decoding if and only if neither optional JSON field holds null |
| `Envelope.EncodingInjective` | crates/kx-app/src/envelope.rs:712-727 | envelopes without such a null have the same canonical tree only if they are equal |
| `Envelope.CanonicalStable` | crates/kx-app/src/envelope.rs:948-950 | the canonical form of any accepted tree is accepted, means the same envelope, and is its own canonical form |
| `Envelope.IdentityIsMeaning` | crates/kx-app/src/envelope.rs:948-950 | accepted trees have the same canonical form exactly when they mean the same envelope |
| `Envelope.EmptyRailsAddNothing` | crates/kx-app/src/envelope.rs:585-594 | the keys of the three rails are present exactly when the rail is not empty |
| `EnvelopeFields.AppReads` | crates/kx-app/src/envelope.rs:542-610 | the App reader yields an envelope if and only if the document holds each of its fields, of every record at every depth, under its own key with its own type, required fields present and missing ones at their defaults |
| `EnvelopeFields.AppWrites` | crates/kx-app/src/envelope.rs:142-610 | the App writer puts each field of every record under its own key, and leaves out exactly the empty ones |
| `EnvelopeFields.WorkflowReads` | crates/kx-app/src/workflow.rs:40-83 | the same for the Workflow reader |
| `EnvelopeFields.WorkflowWrites` | crates/kx-app/src/workflow.rs:40-83 | and for the Workflow writer |
| `EnvelopeRules.AcceptedLane` | crates/kx-app/src/envelope.rs:825-884 | every accepted document is a functional App, with a blueprint object, no hosting and a known mode, or an experience, with a hosting object and a branch and neither blueprint nor mode |
| `EnvelopeRules.OtherTagRefused` | crates/kx-app/src/envelope.rs:825-833 | a document with any other tag is refused for its tag |
| `EnvelopeRules.BareAppAccepted` | crates/kx-app/src/envelope.rs:825-939 | a document with tag, name, any blueprint object without floats and any of the three modes is accepted |
| `EnvelopeRules.BareExperienceAccepted` | crates/kx-app/src/envelope.rs:825-939 | a document with tag, name, an empty hosting object and a branch is accepted |
| `EnvelopeRules.AcceptedTools` | crates/kx-app/src/envelope.rs:880-939 | in an accepted document every tool reference has a valid id and a number for its version |
| `EnvelopeRules.AcceptedGrants` | crates/kx-app/src/envelope.rs:880-939 | and so has every requested grant |
| `EnvelopeRules.AcceptedApps` | crates/kx-app/src/envelope.rs:880-939 | every app it names has a valid handle |
| `EnvelopeRules.AcceptedConnections` | crates/kx-app/src/envelope.rs:880-939 | every connection it names is one the platform admits |
| `EnvelopeRules.NoFloatsMeaning` | crates/kx-app/src/envelope.rs:1067-1080 | the number check passes if and only if every number at every depth is an integer of 64 bits |
| `EnvelopeRules.HexRefMeaning` | crates/kx-app/src/envelope.rs:961-973 | a ref is 64 of the sixteen lowercase hexadecimal digits |
| `EnvelopeRules.VersionAccepted` | crates/kx-app/src/envelope.rs:1034-1041 | the writing of a number, with or without a plus sign, is a version if and only if the number is below 2^64 |
| `EnvelopeRules.VersionRefused` | crates/kx-app/src/envelope.rs:1034-1041 | nothing without a digit or with another character is one |
| `EnvelopeRules.ToolIdForms` | crates/kx-app/src/envelope.rs:1015-1031 | a tool id is one name or two joined by a slash, of handle characters, at most 128 in all |
| `Workflow.ValidationDelegates` | crates/kx-app/src/workflow.rs:228-239 | a workflow is valid if and only if its tag matches and its App view is valid; any other fault is reported as invalid |
| `Workflow.AppViewLossless` | crates/kx-app/src/workflow.rs:191-214 | the App view loses nothing but the tag |
| `Workflow.AppViewRuns` | crates/kx-app/src/workflow.rs:181-214 | the App view of an accepted workflow is accepted by the App reader, as itself |
| `EnvelopeFields.AppViewReads` | crates/kx-app/src/workflow.rs:191-214 | the App view is what the App reader makes of the workflow's own document under the App tag, if and only if its blueprint is not null and the document has no App-only field with content |
| `Workflow.WorkflowRoundTrip` | crates/kx-app/src/workflow.rs:129-144 | a workflow survives encoding and decoding if and only if its input schema is not a present null |
| `Workflow.WorkflowCanonicalStable` | crates/kx-app/src/workflow.rs:249-251 | the canonical form of an accepted workflow is accepted, means the same, and is its own canonical form |
| `Workflow.ReadersExclude` | crates/kx-app/src/workflow.rs:129-133 | no tree is accepted by both readers |
| `ContentRefs.ContentRefsOf` | crates/kx-app/src/envelope.rs:754-782 | the loops return the sorted non-empty refs of all rails |
| `ContentRefs.ClosureMeaning` | crates/kx-app/src/envelope.rs:738-753 | the closure is strictly ascending and holds exactly the non-empty refs of the rails |
| `ContentRefs.ClosureNames` | crates/kx-app/src/envelope.rs:738-782 | a ref is in the closure if and only if it is not empty and stands in the context, prompts, rules, memory or skills, in the steering context, or, when asked for, among the dataset payloads |
| `ContentRefs.ClosureMonotone` | crates/kx-app/src/envelope.rs:773-780 | asking for datasets adds exactly the dataset payloads |
| `ContentRefs.ValidClosure` | crates/kx-app/src/envelope.rs:738-753 | on a valid envelope every ref is 64 lowercase hexadecimal digits and none of those named is missing |
| `TreeRefs.ContentRefsOfTree` | bindings/typescript/src/apps.ts:84-112 | the loops over the JSON tree return the sorted set of the strings they meet, or throw where a value cannot be iterated |
| `TreeRefs.ClosuresAgree` | bindings/typescript/src/apps.ts:84-112 | on every tree the Rust reader decodes, the TypeScript walk returns the closure of the decoded envelope sorted by UTF-16 unit, which is the same list if and only if no two refs order differently |
| `TreeRefs.AcceptedClosuresAgree` | bindings/typescript/src/apps.ts:78-112 | on every envelope that is accepted both closures are the same list of hexadecimal refs |
| `TreeRefs.RailsAgree` | bindings/typescript/src/apps.ts:84-112 | and meets the refs in the same order |
| `CanonicalJson.Sort` | bindings/typescript/src/apps.ts:33-43 | the recursion fills each object key by key in sorted order, with JavaScript's placement of integer-like keys |
| `CanonicalJson.SortIsCanonical` | bindings/typescript/src/apps.ts:33-52 | two values sort alike if and only if they have the same content up to the order of keys, at every depth, integer-like keys included |
| `CanonicalJson.SortKeepsMeaning` | bindings/typescript/src/apps.ts:33-43 | sorting changes no content, at any depth |
| `CanonicalJson.SortIdempotent` | bindings/typescript/src/apps.ts:33-43 | sorting twice is sorting once |
| `CanonicalJson.KeysInScriptOrder` | bindings/typescript/src/apps.ts:33-43 | every object comes out with exactly its keys: the integer-like ones by value, then the others by UTF-16 unit |
| `CanonicalJson.IntegerLikeMeaning` | bindings/typescript/src/apps.ts:33-43 | the integer-like keys are the writings of the numbers below 2^32 - 1 |
| `CanonicalJson.NumberLessMeaning` | bindings/typescript/src/apps.ts:33-43 | and are ordered by those numbers |
| `CanonicalJson.KeysAscend` | bindings/typescript/src/apps.ts:33-43 | every object comes out with its keys strictly ascending by code point, as the Rust serializer writes them, if and only if no key that belongs before an integer-like key is a word or a longer number, and no two words part at characters that UTF-16 orders the other way |
| `CanonicalJson.StepKeysMisplaced` | bindings/typescript/src/apps.ts:45-52 | the keys `2` and `10` come out in that order, which is not ascending |
| `Utf16.OrdersDiffer` | bindings/typescript/src/apps.ts:111 | two strings sort differently by UTF-16 unit and by code point exactly when they first part at a character above U+DFFF in the first plane and one beyond that plane |
| `Utf16.UnitsMeaning` | bindings/typescript/src/apps.ts:111 | a character is one unit outside the surrogates, or a lead and a trail that spell its code point |
| `Handles.DefaultHandle` | bindings/typescript/src/apps.ts:64-76 | the loop sanitizes, trims and cuts the name, or falls back to `app` |
| `Handles.SanitizedMeaning` | bindings/typescript/src/apps.ts:66-70 | lower-case letters, digits, dots, underscores and dashes stay, a capital becomes its lower case, anything else a dash |
| `Handles.TrimmedMeaning` | bindings/typescript/src/apps.ts:71-73 | each character is sanitized in place, and only dots and dashes are taken off the two ends, all of them |
| `Handles.HandleMeaning` | bindings/typescript/src/apps.ts:74-75 | the handle is the trimmed name under `apps/local`, cut to 128 characters, or `app` if nothing is left |
| `Handles.DefaultHandleValid` | crates/kx-app/src/envelope.rs:990-1010 | the default handle passes the handle check if and only if the trimmed name has at most 128 characters or its 128th is neither a dot nor a dash: the cut runs after the trim |
| `Handles.LongNamesCanFail` | bindings/typescript/src/apps.ts:64-76 | a family of longer names whose default handle is invalid |

## Left out

- The gateway client, transports, view classes, personas, tool servers and `app.ts`: calls and field copies around the logic above.
- JSON and UTF-8 text: trees and code-point strings stand for them, so duplicate keys, number syntax and lone surrogates do not occur; nor do the positional form of records and the object form of unit variants that serde also reads.
- Error messages and token positions: only which error occurs, and at which step or handle, is modelled.
- ChainLowering.CompileChain: prototype names are not keys of a task map or a tool contract.
- Blueprint.BuildChain: without resolved local tools, which would add entries to a step's contract.
- Blueprint.Builder.Build: the setters `mode` and `contextBundles` are plain field assignments of the model.
- Flow: `step`, `tool`, `then` and `parallel` append one fragment like the methods modelled; `team`, `fanOutGather` and `mapReduce` are `swarm` under other names; registering servers and memory at run time is client traffic.
- EventTail.ExactlyOnce: a delta whose kind the client does not recognize is not distinguished, since the server sends only kinds it knows.
- EventStream.FramesForRange: sequence numbers are unbounded; the SDK's conversions between 64-bit and floating-point numbers are not modelled.
- WaitEvents.VerdictIsFirst: time is a free choice of when the deadline strikes; fetching the committed content and the polling modes are left out.
- SocketBridge: the WebSocket URL helpers, JSON decoding of messages and the token stream.
- AuditSink.Conservation: an append is all or nothing, and the clock and the principal are part of the line's body.
- AuditSink.LinesStayWhole: the serializer is assumed to write no newline inside a line, and the number inside a line's text is not modelled, only the number the line was drawn with.
- Base64.Decode: text lengths below 2^31 / 3, where the size computation does not overflow.
- Envelope.Validate: the descriptor and credential checks are a parameter.
- Workflow summaries, pretty printing and the derived labels of kinds and modes.
- CanonicalJson.SortKeepsMeaning: an own key named `__proto__` does not occur; assigning it (bindings/typescript/src/apps.ts:38) sets the prototype instead, and the key is lost.
