/** The `Flow` object: every method appends to one fragment in place; the proofs tie each
    method to the list of steps it adds and `toChain` to the flat sequence of all of them.
    A thrown `ChainParseError` is a `false` result. */
module FlowBuilder {
  import opened Lists
  import opened Sorting
  import opened ChainMeaning
  import opened Graph
  import opened ChainLowering
  import opened Combinators
  import opened Flows

  // The default prompts; their wording plays no part.
  const SWARM_GATHER := "swarm gather"
  const SUPERVISOR_PLANNER := "supervisor plan"
  const SUPERVISOR_GATHER := "supervisor gather"
  const CONSENSUS_JUDGE := "consensus judge"
  const REVIEW := "review"

  // ------------------------------------------------------------------ participants

  datatype Participant =
    | Prompt(text: string)
    | PromptTools(text: string, tools: Tools)
    | Existing(frag: Frag<Task>)
    | SubFlow(node: Option<Frag<Task>>)
    | Agent(instructions: string, options: StepOptions)

  ghost predicate Usable(p: Participant) {
    match p
    case Existing(f) => Built(f)
    case SubFlow(Some(f)) => Built(f)
    case _ => true
  }

  /** A step to add: a fragment that already exists, or a new task object. */
  datatype Planned = Reuse(frag: Frag<Task>) | Make(spec: TaskSpec)

  ghost predicate Sound(p: Planned) {
    p.Reuse? ==> Built(p.frag)
  }

  /** The characters `trim` removes. */
  predicate IsWhite(c: char) {
    var n := c as int;
    0x9 <= n <= 0xd || n == 0x20 || n == 0xa0 || n == 0x1680 || 0x2000 <= n <= 0x200a ||
    n == 0x2028 || n == 0x2029 || n == 0x202f || n == 0x205f || n == 0x3000 || n == 0xfeff
  }

  function Trim(s: string): string {
    if s == "" then s
    else if IsWhite(s[0]) then Trim(s[1..])
    else if IsWhite(s[|s| - 1]) then Trim(s[..|s| - 1])
    else s
  }

  function JoinGoal(text: string, goal: string): string {
    if goal == "" then text else Trim(text + "\n\n" + goal)
  }

  /** `resolveParticipant`; a participant agent's App bindings are not forwarded. */
  function Plan(p: Participant, goal: string): Result<Planned, ChainError> {
    match p
    case Prompt(text) => Ok(Make(PromptSpec(JoinGoal(text, goal))))
    case PromptTools(text, tools) => Fresh(ModelSpec(JoinGoal(text, goal), map[], NO_OPTIONS.(tools := tools)))
    case Existing(f) => Ok(Reuse(f))
    case SubFlow(None) => Err(ParseError)
    case SubFlow(Some(f)) => Ok(Reuse(f))
    case Agent(base, o) =>
      Fresh(ModelSpec(if base == "" then goal else JoinGoal(base, goal), map[],
                      o.(skills := [], connections := [], datasets := [], apps := [])))
  }

  function Fresh(r: Result<TaskSpec, ChainError>): Result<Planned, ChainError> {
    match r
    case Err(e) => Err(e)
    case Ok(spec) => Ok(Make(spec))
  }

  function PlanAll(ps: seq<Participant>, goal: string): Result<seq<Planned>, ChainError> {
    if ps == [] then Ok([])
    else match PlanAll(ps[..|ps| - 1], goal)
      case Err(e) => Err(e)
      case Ok(plans) =>
        match Plan(ps[|ps| - 1], goal)
        case Err(e) => Err(e)
        case Ok(plan) => Ok(plans + [plan])
  }

  datatype Gather = Default | GatherPrompt(text: string) | GatherFrag(frag: Frag<Task>)

  /** `sinkFrag`. */
  function Sink(gather: Gather, synthesize: bool, prompt: string): Planned {
    match gather
    case GatherPrompt(text) => Make(PromptSpec(text))
    case GatherFrag(f) => Reuse(f)
    case Default => Make(if synthesize then PromptSpec(prompt) else PureSpec(map[]))
  }

  /** The supervisor's planner, or the default one. */
  function Lead(planner: Option<Participant>, goal: string): Result<Planned, ChainError> {
    if planner.Some? then Plan(planner.value, goal) else Ok(Make(PromptSpec(JoinGoal(SUPERVISOR_PLANNER, goal))))
  }

  // ------------------------------------------------------------------ allocation

  function Makes(plans: seq<Planned>): nat {
    if plans == [] then 0 else Makes(plans[..|plans| - 1]) + if plans[|plans| - 1].Make? then 1 else 0
  }

  function PlaceOne(plan: Planned, next: nat): Frag<Task> {
    match plan
    case Reuse(f) => f
    case Make(spec) => One(Task(next, spec))
  }

  /** The planned steps with identities handed out left to right from `next`. */
  function Place(plans: seq<Planned>, next: nat): (fs: seq<Frag<Task>>)
    ensures |fs| == |plans|
  {
    if plans == [] then []
    else Place(plans[..|plans| - 1], next) + [PlaceOne(plans[|plans| - 1], next + Makes(plans[..|plans| - 1]))]
  }

  lemma {:induction false} PlaceBuilt(plans: seq<Planned>, next: nat)
    requires forall p :: p in plans ==> Sound(p)
    ensures forall f :: f in Place(plans, next) ==> Built(f)
  {
    if plans != [] {
      PlaceBuilt(plans[..|plans| - 1], next);
      assert Sound(plans[|plans| - 1]);
    }
  }

  lemma {:induction false} PlanAllSound(ps: seq<Participant>, goal: string)
    requires forall p :: p in ps ==> Usable(p)
    ensures PlanAll(ps, goal).Ok? ==>
      |PlanAll(ps, goal).value| == |ps| && forall p :: p in PlanAll(ps, goal).value ==> Sound(p)
  {
    if ps != [] {
      PlanAllSound(ps[..|ps| - 1], goal);
      assert Usable(ps[|ps| - 1]);
    }
  }

  lemma {:induction false} PlanAllPush(ps: seq<Participant>, goal: string, i: nat, plans: seq<Planned>)
    requires i < |ps| && PlanAll(ps[..i], goal) == Ok(plans) && Plan(ps[i], goal).Ok?
    ensures PlanAll(ps[..i + 1], goal) == Ok(plans + [Plan(ps[i], goal).value])
  {
    assert ps[..i + 1][..i] == ps[..i];
  }

  /** The fragment of a planned step: the existing one, or a new task. */
  method Realize(arena: Arena, plan: Planned) returns (f: Frag<Task>)
    modifies arena
    ensures f == PlaceOne(plan, old(arena.next))
    ensures arena.next == old(arena.next) + if plan.Make? then 1 else 0
  {
    match plan
    case Reuse(g) => f := g;
    case Make(spec) =>
      var t := arena.New(spec);
      f := One(t);
  }

  /** `participants.map(resolveParticipant)`: left to right, stopping at the first failure. */
  method Branches(arena: Arena, ps: seq<Participant>, goal: string) returns (r: Option<seq<Frag<Task>>>)
    modifies arena
    ensures r.Some? <==> PlanAll(ps, goal).Ok?
    ensures r.Some? ==>
      && r.value == Place(PlanAll(ps, goal).value, old(arena.next))
      && arena.next == old(arena.next) + Makes(PlanAll(ps, goal).value)
  {
    var branches: seq<Frag<Task>> := [];
    ghost var plans: seq<Planned> := [];
    for i := 0 to |ps|
      invariant PlanAll(ps[..i], goal) == Ok(plans)
      invariant Adds([], branches, plans, old(arena.next), arena.next)
    {
      var plan := Plan(ps[i], goal);
      if plan.Err? {
        PlanFails(ps, goal, i);
        return None;
      }
      PlanAllPush(ps, goal, i, plans);
      AddsPush([], branches, plans, old(arena.next), arena.next, plan.value);
      PlaceSingle(plan.value, arena.next);
      plans := plans + [plan.value];
      var f := Realize(arena, plan.value);
      branches := branches + [f];
    }
    assert ps[..|ps|] == ps && branches == [] + Place(plans, old(arena.next)) == Place(plans, old(arena.next));
    return Some(branches);
  }

  // ------------------------------------------------------------------ the builder

  class Flow {
    var node: Option<Frag<Task>>
    const seed: int
    var ctx: seq<string>
    var mcp: seq<string>
    var memoryFacts: seq<string>
    var pendingImage: Option<string>
    ghost var steps: seq<Frag<Task>>

    constructor (seed: int)
      ensures Valid() && steps == [] && this.seed == seed && ctx == [] && pendingImage == None
    {
      node, ctx, mcp, memoryFacts, pendingImage, steps := None, [], [], [], None, [];
      this.seed := seed;
    }

    /** The fragment is the left nesting of the steps appended so far. */
    ghost predicate Valid()
      reads this
    {
      && (forall s :: s in steps ==> Built(s))
      && node == if steps == [] then None else Some(Nest(steps))
    }

    method Append(frag: Frag<Task>)
      requires Valid() && Built(frag)
      modifies this`node, this`steps
      ensures Valid() && steps == old(steps) + [frag]
    {
      assert (steps + [frag])[..|steps|] == steps;
      node := if node.None? then Some(frag) else Some(SeqOf([node.value, frag]));
      steps := steps + [frag];
    }

    /** Append a planned step. */
    method Add(arena: Arena, plan: Planned)
      requires Valid() && Sound(plan)
      modifies this`node, this`steps, arena
      ensures Valid() && steps == old(steps) + Place([plan], old(arena.next))
      ensures steps == old(steps) + [PlaceOne(plan, old(arena.next))]
      ensures arena.next == old(arena.next) + Makes([plan])
    {
      assert [plan][..0] == [];
      PlaceSingle(plan, arena.next);
      var f := Realize(arena, plan);
      Append(f);
    }

    /** `agent`: consumes the pending image. */
    method AgentStep(arena: Arena, prompt: string, o: StepOptions) returns (ok: bool)
      requires Valid()
      modifies this`node, this`steps, this`pendingImage, arena
      ensures Valid() && pendingImage == None
      ensures var params: map<string, string> :=
          if old(pendingImage).Some? then map["image_ref" := old(pendingImage).value] else map[];
        var spec := ModelSpec(prompt, params, o);
        && ok == spec.Ok?
        && steps == old(steps) + (if ok then [One(Task(old(arena.next), spec.value))] else [])
    {
      var params: map<string, string> := if pendingImage.Some? then map[IMAGE_REF_KEY := pendingImage.value] else map[];
      pendingImage := None;
      var spec := ModelSpec(prompt, params, o);
      if spec.Err? { return false; }
      var t := arena.New(spec.value);
      Append(One(t));
      return true;
    }

    method Image(ref: string)
      requires Valid()
      modifies this`pendingImage
      ensures Valid() && pendingImage == Some(ref)
    {
      pendingImage := Some(ref);
    }

    method Context(handles: seq<string>)
      requires Valid()
      modifies this`ctx
      ensures Valid() && ctx == old(ctx) + handles
    {
      ctx := ctx + handles;
    }

    /** `withMcp` and `withMemory` leave the graph alone. */
    method WithMcp(spec: string)
      requires Valid()
      modifies this`mcp
      ensures Valid() && mcp == old(mcp) + [spec]
    {
      mcp := mcp + [spec];
    }

    method WithMemory(facts: seq<string>)
      requires Valid()
      modifies this`memoryFacts
      ensures Valid() && memoryFacts == old(memoryFacts) + facts
    {
      memoryFacts := memoryFacts + facts;
    }

    /** Resolved participants as one `parallel(...)`. */
    method Fan(arena: Arena, ps: seq<Participant>, goal: string) returns (ok: bool)
      requires Valid() && forall p :: p in ps ==> Usable(p)
      modifies this`node, this`steps, arena
      ensures Valid() && (ok <==> ps != [] && PlanAll(ps, goal).Ok?)
      ensures ok ==> steps == old(steps) + [ParOf(Place(PlanAll(ps, goal).value, old(arena.next)))]
      ensures ok ==> arena.next == old(arena.next) + Makes(PlanAll(ps, goal).value)
      ensures !ok ==> steps == old(steps)
    {
      if ps == [] { return false; }
      var branches := Branches(arena, ps, goal);
      if branches.None? { return false; }
      PlanAllSound(ps, goal);
      PlaceBuilt(PlanAll(ps, goal).value, old(arena.next));
      Append(ParOf(branches.value));
      return true;
    }

    /** `[a & …] > sink`. */
    method FanIn(arena: Arena, ps: seq<Participant>, goal: string, sink: Planned) returns (ok: bool)
      requires Valid() && (forall p :: p in ps ==> Usable(p)) && Sound(sink)
      modifies this`node, this`steps, arena
      ensures Valid() && (ok <==> ps != [] && PlanAll(ps, goal).Ok?)
      ensures ok ==> var plans, next := PlanAll(ps, goal).value, old(arena.next);
        steps == old(steps) + [ParOf(Place(plans, next)), PlaceOne(sink, next + Makes(plans))]
      ensures !ok ==> steps == old(steps)
    {
      ok := Fan(arena, ps, goal);
      if !ok { return; }
      ghost var par, p := ParOf(Place(PlanAll(ps, goal).value, old(arena.next))), PlaceOne(sink, arena.next);
      PushTwo(old(steps), par, p);
      Add(arena, sink);
    }

    /** `swarm`: `[a & …] > gather`. `team` is a swarm that always synthesizes. */
    method Swarm(arena: Arena, ps: seq<Participant>, goal: string, gather: Gather, synthesize: bool) returns (ok: bool)
      requires Valid() && (forall p :: p in ps ==> Usable(p)) && Sound(Sink(gather, synthesize, SWARM_GATHER))
      modifies this`node, this`steps, arena
      ensures Valid() && (ok <==> ps != [] && PlanAll(ps, goal).Ok?)
      ensures ok ==> var plans, next := PlanAll(ps, goal).value, old(arena.next);
        steps == old(steps) + [ParOf(Place(plans, next)), PlaceOne(Sink(gather, synthesize, SWARM_GATHER), next + Makes(plans))]
      ensures !ok ==> steps == old(steps)
    {
      ok := FanIn(arena, ps, goal, Sink(gather, synthesize, SWARM_GATHER));
    }

    /** `consensus`: `[v & …] > reduce`, a judge or a majority vote. */
    method Consensus(arena: Arena, ps: seq<Participant>, goal: string, majority: bool, judge: Gather) returns (ok: bool)
      requires Valid() && (forall p :: p in ps ==> Usable(p)) && Sound(Sink(judge, true, CONSENSUS_JUDGE))
      modifies this`node, this`steps, arena
      ensures Valid() && (ok <==> ps != [] && PlanAll(ps, goal).Ok?)
      ensures ok ==> var plans, next := PlanAll(ps, goal).value, old(arena.next);
        var sink := if majority then Make(PureSpec(map["kx.consensus.vote" := "majority"])) else Sink(judge, true, CONSENSUS_JUDGE);
        steps == old(steps) + [ParOf(Place(plans, next)), PlaceOne(sink, next + Makes(plans))]
      ensures !ok ==> steps == old(steps)
    {
      var sink := if majority then Make(PureSpec(map[CONSENSUS_VOTE_KEY := "majority"])) else Sink(judge, true, CONSENSUS_JUDGE);
      ok := FanIn(arena, ps, goal, sink);
    }

    /** `supervisor`: `planner > [workers] > gather`. `rounds` and `pool` are reserved. */
    method Supervisor(arena: Arena, workers: seq<Participant>, planner: Option<Participant>, goal: string,
                      gather: Gather, synthesize: bool, rounds: int, pool: Option<int>) returns (ok: bool)
      requires Valid() && (forall p :: p in workers ==> Usable(p)) && (planner.Some? ==> Usable(planner.value))
      requires Sound(Sink(gather, synthesize, SUPERVISOR_GATHER))
      modifies this`node, this`steps, arena
      ensures Valid()
      ensures var plan := Lead(planner, goal);
        var admitted := workers != [] && rounds == 1 && pool == None && plan.Ok?;
        && (ok <==> admitted && PlanAll(workers, goal).Ok?)
        && (!admitted ==> steps == old(steps))
        && (admitted && !ok ==> steps == old(steps) + [PlaceOne(plan.value, old(arena.next))])
        && (ok ==> var lead, plans := PlaceOne(plan.value, old(arena.next)), PlanAll(workers, goal).value;
              var next := old(arena.next) + Makes([plan.value]);
              steps == old(steps) + [lead] + [ParOf(Place(plans, next)),
                                     PlaceOne(Sink(gather, synthesize, SUPERVISOR_GATHER), next + Makes(plans))])
    {
      if workers == [] || rounds != 1 || pool != None { return false; }
      var plan := Lead(planner, goal);
      if plan.Err? { return false; }
      Add(arena, plan.value);
      ok := FanIn(arena, workers, goal, Sink(gather, synthesize, SUPERVISOR_GATHER));
    }

    /** `reviewLoop`: `worker > review > review > …`. */
    method ReviewLoop(arena: Arena, worker: Participant, reviewer: Option<Participant>, rounds: int, goal: string)
      returns (ok: bool)
      requires Valid() && Usable(worker) && (reviewer.Some? ==> Usable(reviewer.value))
      modifies this`node, this`steps, arena
      ensures Valid()
      ensures ok <==> rounds >= 1 && Plan(worker, goal).Ok? && ReviewPlan(reviewer).Ok?
      ensures ok ==>
        steps == old(steps) + Place(Rounds(Plan(worker, goal).value, ReviewPlan(reviewer).value, rounds), old(arena.next))
      ensures rounds < 1 || Plan(worker, goal).Err? ==> steps == old(steps)
      ensures !ok && rounds >= 1 && Plan(worker, goal).Ok? ==>
        steps == old(steps) + [PlaceOne(Plan(worker, goal).value, old(arena.next))]
    {
      if rounds < 1 { return false; }
      var w := Plan(worker, goal);
      if w.Err? { return false; }
      Add(arena, w.value);
      ok := Review(arena, w.value, reviewer, rounds, old(steps), old(arena.next));
    }

    /** The loop over rounds; resolving the reviewer is the same in each. */
    method Review(arena: Arena, ghost w: Planned, reviewer: Option<Participant>, rounds: nat,
                  ghost before: seq<Frag<Task>>, ghost next: nat) returns (ok: bool)
      requires Valid() && rounds >= 1 && (reviewer.Some? ==> Usable(reviewer.value))
      requires steps == before + Place([w], next) && arena.next == next + Makes([w])
      modifies this`node, this`steps, arena
      ensures Valid() && ok == ReviewPlan(reviewer).Ok?
      ensures ok ==> steps == before + Place(Rounds(w, ReviewPlan(reviewer).value, rounds), next)
      ensures !ok ==> steps == old(steps)
    {
      var r := ReviewPlan(reviewer);
      if r.Err? { return false; }
      ReviewSound(reviewer);
      for i := 0 to rounds
        invariant Valid() && Adds(before, steps, Rounds(w, r.value, i), next, arena.next)
      {
        AddsPush(before, steps, Rounds(w, r.value, i), next, arena.next, r.value);
        Add(arena, r.value);
      }
      return true;
    }

    /** `toChain`: an empty flow is refused; otherwise the chain is that of the flat `seq` of
        all steps. */
    method ToChain() returns (r: Result<Chain, ChainError>)
      requires Valid()
      ensures r == if steps == [] then Err(ParseError) else LowerFrag(SeqOf(steps), seed, ctx)
    {
      if node.None? { return Err(ParseError); }
      r := ChainFrom(node.value, seed, ctx);
      FlowIsFlatSeq(steps, seed, ctx);
    }
  }

  lemma {:induction false} PlanFails(ps: seq<Participant>, goal: string, i: nat)
    requires i < |ps| && PlanAll(ps[..i], goal).Ok? && Plan(ps[i], goal).Err?
    ensures PlanAll(ps, goal).Err?
  {
    if i < |ps| - 1 {
      assert ps[..|ps| - 1][..i] == ps[..i];
      PlanFails(ps[..|ps| - 1], goal, i);
    }
  }

  function ReviewPlan(reviewer: Option<Participant>): (r: Result<Planned, ChainError>) {
    if reviewer.Some? then Plan(reviewer.value, "") else Ok(Make(PromptSpec(REVIEW)))
  }

  lemma ReviewSound(reviewer: Option<Participant>)
    requires (reviewer.Some? ==> Usable(reviewer.value)) && ReviewPlan(reviewer).Ok?
    ensures Sound(ReviewPlan(reviewer).value)
  {
  }

  /** The steps `plans`, placed from `next`, have been appended to `before`. */
  ghost predicate Adds(before: seq<Frag<Task>>, after: seq<Frag<Task>>, plans: seq<Planned>, next: nat, next': nat) {
    after == before + Place(plans, next) && next' == next + Makes(plans)
  }

  lemma AddsPush(before: seq<Frag<Task>>, after: seq<Frag<Task>>, plans: seq<Planned>, next: nat, next': nat, p: Planned)
    requires Adds(before, after, plans, next, next')
    ensures Adds(before, after + Place([p], next'), plans + [p], next, next' + Makes([p]))
  {
    PlaceSingle(p, next');
    PlacePush(plans, p, next);
    ConcatAssociative(before, Place(plans, next), [PlaceOne(p, next')]);
  }

  /** The worker, then one reviewer per round. */
  function Rounds(w: Planned, r: Planned, n: nat): (plans: seq<Planned>)
    ensures |plans| == n + 1
  {
    if n == 0 then [w] else Rounds(w, r, n - 1) + [r]
  }

  lemma PlacePush(plans: seq<Planned>, p: Planned, next: nat)
    ensures Place(plans + [p], next) == Place(plans, next) + [PlaceOne(p, next + Makes(plans))]
    ensures Makes(plans + [p]) == Makes(plans) + if p.Make? then 1 else 0
  {
    assert (plans + [p])[..|plans|] == plans;
  }

  lemma PlaceSingle(plan: Planned, next: nat)
    ensures Place([plan], next) == [PlaceOne(plan, next)]
    ensures Makes([plan]) == if plan.Make? then 1 else 0
  {
    assert [plan][..0] == [];
  }

  // ------------------------------------------------------------------ review loops

  /** Newly made tasks are different objects. */
  lemma {:induction false} MadeDistinct(specs: seq<TaskSpec>, next: nat)
    ensures var plans := seq(|specs|, i requires 0 <= i < |specs| => Make(specs[i]));
      var ts := seq(|specs|, i requires 0 <= i < |specs| => Task(next + i, specs[i]));
      Place(plans, next) == Ones(ts) && Distinct(ts) && Makes(plans) == |specs|
  {
    var plans := seq(|specs|, i requires 0 <= i < |specs| => Make(specs[i]));
    var ts := seq(|specs|, i requires 0 <= i < |specs| => Task(next + i, specs[i]));
    if specs != [] {
      var init := specs[..|specs| - 1];
      MadeDistinct(init, next);
      assert plans[..|plans| - 1] == seq(|init|, i requires 0 <= i < |init| => Make(init[i]));
      assert ts[..|ts| - 1] == seq(|init|, i requires 0 <= i < |init| => Task(next + i, init[i]));
      assert Ones(ts) == Ones(ts[..|ts| - 1]) + [One(ts[|ts| - 1])];
    }
  }

  lemma {:induction false} RoundsList(w: Planned, r: Planned, n: nat)
    ensures forall k :: 0 <= k <= n ==> Rounds(w, r, n)[k] == if k == 0 then w else r
  {
    if n > 0 { RoundsList(w, r, n - 1); }
  }

  /** With a worker and reviewers that are prompts, a review loop of any number of rounds is a
      path of `rounds + 1` new model steps. */
  lemma ReviewLoopIsPath(worker: TaskSpec, review: TaskSpec, rounds: nat, next: nat, seed: int, context: seq<string>, i: nat, j: nat)
    requires i <= rounds && j <= rounds
    ensures var fs := Place(Rounds(Make(worker), Make(review), rounds), next);
      && (forall f :: f in fs ==> Built(f))
      && var r := LowerFrag(SeqOf(fs), seed, context);
         r.Ok? && |r.value.nodes| == rounds + 1 && ((i, j) in r.value.edges <==> j == i + 1)
  {
    var specs := [worker] + seq(rounds, _ => review);
    MadeDistinct(specs, next);
    var ts := seq(|specs|, k requires 0 <= k < |specs| => Task(next + k, specs[k]));
    RoundsList(Make(worker), Make(review), rounds);
    assert seq(|specs|, k requires 0 <= k < |specs| => Make(specs[k])) == Rounds(Make(worker), Make(review), rounds);
    PathShape(ts, seed, context, i, j);
  }

  /** Rounds over an existing fragment place that one fragment every time. */
  lemma {:induction false} PlaceRounds(w: Planned, r: Frag<Task>, rounds: nat, next: nat)
    ensures Place(Rounds(w, Reuse(r), rounds), next) == [PlaceOne(w, next)] + seq(rounds, _ => r)
  {
    if rounds == 0 {
      PlaceSingle(w, next);
    } else {
      PlaceRounds(w, r, rounds - 1, next);
      PlacePush(Rounds(w, Reuse(r), rounds - 1), Reuse(r), next);
    }
  }

  /** The steps of a flow after a review loop over an existing reviewer. */
  function Reviewed(before: seq<Frag<Task>>, w: Planned, r: Frag<Task>, rounds: nat, next: nat): seq<Frag<Task>> {
    before + Place(Rounds(w, Reuse(r), rounds), next)
  }

  lemma ReviewedBuilt(before: seq<Frag<Task>>, w: Planned, r: Frag<Task>, rounds: nat, next: nat)
    requires (forall f :: f in before ==> Built(f)) && Sound(w) && Built(r)
    ensures forall f :: f in Reviewed(before, w, r, rounds, next) ==> Built(f)
  {
    PlaceRounds(w, r, rounds, next);
  }

  /** A review loop over an existing reviewer of any shape, after any steps and with any
      worker, lowers exactly when there is one round and that round lowers; with steps that
      share no task, exactly when there is one round. A second round is refused as a cycle. */
  lemma ReusedReviewer(before: seq<Frag<Task>>, w: Planned, r: Frag<Task>, rounds: nat, next: nat, seed: int, context: seq<string>)
    requires (forall f :: f in before ==> Built(f)) && Sound(w) && Built(r) && rounds >= 1
    ensures var one, all := Reviewed(before, w, r, 1, next), Reviewed(before, w, r, rounds, next);
      && (forall f :: f in one ==> Built(f)) && (forall f :: f in all ==> Built(f))
      && (LowerFrag(SeqOf(all), seed, context).Ok? <==> rounds == 1 && LowerFrag(SeqOf(one), seed, context).Ok?)
      && (Distinct(FragMean(SeqOf(one)).nodes) ==> (LowerFrag(SeqOf(all), seed, context).Ok? <==> rounds == 1))
      && (rounds > 1 ==> LowerFrag(SeqOf(all), seed, context) == Err(Cycle))
  {
    var one, all := Reviewed(before, w, r, 1, next), Reviewed(before, w, r, rounds, next);
    ReviewedBuilt(before, w, r, 1, next);
    ReviewedBuilt(before, w, r, rounds, next);
    if rounds > 1 {
      PlaceRounds(w, r, rounds, next);
      var k := |before| + 1;
      assert all[k] == r && all[k + 1] == r;
      RepeatRefused(all, k, seed, context);
    } else if Distinct(FragMean(SeqOf(one)).nodes) {
      FreshLowers(SeqOf(one), seed, context);
    }
  }

  /** A worker that is its own reviewer is refused even in one round. */
  lemma WorkerAsReviewer(before: seq<Frag<Task>>, r: Frag<Task>, rounds: nat, next: nat, seed: int, context: seq<string>)
    requires (forall f :: f in before ==> Built(f)) && Built(r) && rounds >= 1
    ensures forall f :: f in Reviewed(before, Reuse(r), r, rounds, next) ==> Built(f)
    ensures LowerFrag(SeqOf(Reviewed(before, Reuse(r), r, rounds, next)), seed, context) == Err(Cycle)
  {
    ReviewedBuilt(before, Reuse(r), r, rounds, next);
    PlaceRounds(Reuse(r), r, rounds, next);
    var all := Reviewed(before, Reuse(r), r, rounds, next);
    assert all[|before|] == r && all[|before| + 1] == r;
    RepeatRefused(all, |before|, seed, context);
  }

  lemma ThreeInARow(x: Task, y: Task, z: Task)
    ensures FragMean(SeqOf([One(x), SeqOf([One(y), One(z)])])).nodes == [x, y, z]
  {
    MeansOfTwo(One(y), One(z));
    MeansOfTwo(One(x), SeqOf([One(y), One(z)]));
    PairMeaning(FragMean(One(y)), FragMean(One(z)), (x, x));
    PairMeaning(FragMean(One(x)), FragMean(SeqOf([One(y), One(z)])), (x, x));
  }

  /** A reviewer of two steps: one round lowers, two do not. */
  lemma TwoStepReviewer(x: Task, y: Task, z: Task, seed: int, context: seq<string>)
    requires Distinct([x, y, z])
    ensures var r := SeqOf([One(y), One(z)]);
      && (forall f :: f in Reviewed([], Reuse(One(x)), r, 1, 0) + Reviewed([], Reuse(One(x)), r, 2, 0) ==> Built(f))
      && LowerFrag(SeqOf(Reviewed([], Reuse(One(x)), r, 1, 0)), seed, context).Ok?
      && LowerFrag(SeqOf(Reviewed([], Reuse(One(x)), r, 2, 0)), seed, context) == Err(Cycle)
  {
    var r := SeqOf([One(y), One(z)]);
    assert Built(r);
    ThreeInARow(x, y, z);
    PlaceRounds(Reuse(One(x)), r, 1, 0);
    assert Reviewed([], Reuse(One(x)), r, 1, 0) == [One(x), r];
    ReusedReviewer([], Reuse(One(x)), r, 1, 0, seed, context);
    ReusedReviewer([], Reuse(One(x)), r, 2, 0, seed, context);
  }

  // ------------------------------------------------------------------ swarms and supervisors

  function Plans(specs: seq<TaskSpec>): (plans: seq<Planned>)
    ensures |plans| == |specs| && forall i :: 0 <= i < |specs| ==> plans[i] == Make(specs[i])
  {
    seq(|specs|, i requires 0 <= i < |specs| => Make(specs[i]))
  }

  function Tasks(specs: seq<TaskSpec>, next: nat): (ts: seq<Task>)
    ensures |ts| == |specs| && forall i :: 0 <= i < |specs| ==> ts[i] == Task(next + i, specs[i])
  {
    seq(|specs|, i requires 0 <= i < |specs| => Task(next + i, specs[i]))
  }

  lemma PlansPlaced(specs: seq<TaskSpec>, next: nat)
    ensures Place(Plans(specs), next) == Ones(Tasks(specs, next)) && Makes(Plans(specs)) == |specs|
  {
    MadeDistinct(specs, next);
    assert Plans(specs) == seq(|specs|, i requires 0 <= i < |specs| => Make(specs[i]));
    assert Tasks(specs, next) == seq(|specs|, i requires 0 <= i < |specs| => Task(next + i, specs[i]));
  }

  /** The steps `swarm` adds for participants and a gather step that are new. */
  function SwarmSteps(specs: seq<TaskSpec>, sink: TaskSpec, next: nat): seq<Frag<Task>> {
    [ParOf(Place(Plans(specs), next)), PlaceOne(Make(sink), next + Makes(Plans(specs)))]
  }

  lemma SwarmPlaced(specs: seq<TaskSpec>, sink: TaskSpec, next: nat)
    requires specs != []
    ensures var ts := Tasks(specs + [sink], next);
      && SwarmSteps(specs, sink, next) == [ParOf(Ones(ts[..|specs|])), One(ts[|specs|])]
      && ts == ts[..|specs|] + [ts[|specs|]]
    ensures forall f :: f in SwarmSteps(specs, sink, next) ==> Built(f)
  {
    PlansPlaced(specs, next);
    assert Tasks(specs + [sink], next)[..|specs|] == Tasks(specs, next);
    assert Built(ParOf(Ones(Tasks(specs, next))));
  }

  lemma TasksMeaning(specs: seq<TaskSpec>, next: nat)
    ensures Distinct(Tasks(specs, next)) && Specs(Tasks(specs, next)) == specs
  {
  }

  /** They lower to a star: each participant feeds the gather step, and nothing else is
      joined. */
  lemma SwarmIsStar(specs: seq<TaskSpec>, sink: TaskSpec, next: nat, seed: int, context: seq<string>, i: nat, j: nat)
    requires specs != [] && i <= |specs| && j <= |specs|
    ensures forall f :: f in SwarmSteps(specs, sink, next) ==> Built(f)
    ensures var r := LowerFrag(SeqOf(SwarmSteps(specs, sink, next)), seed, context);
      r.Ok? && r.value.nodes == specs + [sink] && ((i, j) in r.value.edges <==> i < |specs| && j == |specs|)
  {
    SwarmPlaced(specs, sink, next);
    TasksMeaning(specs + [sink], next);
    var ts := Tasks(specs + [sink], next);
    SwarmShape(ts[..|specs|], ts[|specs|], seed, context, i, j);
  }

  /** The steps `supervisor` adds when planner, workers and gather step are new. */
  function SupervisorSteps(lead: TaskSpec, specs: seq<TaskSpec>, sink: TaskSpec, next: nat): seq<Frag<Task>> {
    [PlaceOne(Make(lead), next)] + SwarmSteps(specs, sink, next + Makes([Make(lead)]))
  }

  lemma SupervisorPlaced(lead: TaskSpec, specs: seq<TaskSpec>, sink: TaskSpec, next: nat)
    requires specs != []
    ensures var ts := Tasks([lead] + specs + [sink], next);
      && SupervisorSteps(lead, specs, sink, next) == [One(ts[0]), ParOf(Ones(ts[1..|specs| + 1])), One(ts[|specs| + 1])]
      && ts == [ts[0]] + ts[1..|specs| + 1] + [ts[|specs| + 1]]
    ensures forall f :: f in SupervisorSteps(lead, specs, sink, next) ==> Built(f)
  {
    PlaceSingle(Make(lead), next);
    SwarmPlaced(specs, sink, next + 1);
    var ts, rest := Tasks([lead] + specs + [sink], next), Tasks(specs + [sink], next + 1);
    assert ts[1..] == rest;
    assert ts[1..|specs| + 1] == rest[..|specs|];
  }

  /** The planner feeds every worker, every worker the gather step, and nothing else is
      joined. */
  lemma SupervisorIsDiamond(lead: TaskSpec, specs: seq<TaskSpec>, sink: TaskSpec, next: nat, seed: int, context: seq<string>, i: nat, j: nat)
    requires specs != [] && i <= |specs| + 1 && j <= |specs| + 1
    ensures forall f :: f in SupervisorSteps(lead, specs, sink, next) ==> Built(f)
    ensures var r := LowerFrag(SeqOf(SupervisorSteps(lead, specs, sink, next)), seed, context);
      && r.Ok? && r.value.nodes == [lead] + specs + [sink]
      && ((i, j) in r.value.edges <==> (i == 0 && 1 <= j <= |specs|) || (1 <= i <= |specs| && j == |specs| + 1))
  {
    SupervisorPlaced(lead, specs, sink, next);
    TasksMeaning([lead] + specs + [sink], next);
    var ts := Tasks([lead] + specs + [sink], next);
    SupervisorShape(ts[0], ts[1..|specs| + 1], ts[|specs| + 1], seed, context, i, j);
  }

  // ------------------------------------------------------------------ what the steps say

  /** Trimming takes off white space at both ends and nothing else. */
  lemma {:induction false} TrimMeaning(s: string) returns (a: nat, b: nat)
    ensures a <= b <= |s| && Trim(s) == s[a..b]
    ensures forall i :: 0 <= i < a || b <= i < |s| ==> IsWhite(s[i])
    ensures a < b ==> !IsWhite(s[a]) && !IsWhite(s[b - 1])
    decreases |s|
  {
    if s != "" && IsWhite(s[0]) {
      var rest := s[1..];
      a, b := TrimMeaning(rest);
      assert rest[a..b] == s[a + 1..b + 1];
      a, b := a + 1, b + 1;
      assert forall i :: 1 <= i < |s| ==> s[i] == rest[i - 1];
    } else if s != "" && IsWhite(s[|s| - 1]) {
      var init := s[..|s| - 1];
      a, b := TrimMeaning(init);
      assert init[a..b] == s[a..b];
    } else {
      a, b := 0, |s|;
      assert s[0..|s|] == s;
    }
  }

  /** A model step with nothing but a prompt. */
  predicate PlainModel(t: TaskSpec, prompt: string) {
    && t.kind == Model && t.prompt == prompt && t.modelId == "" && t.params == map[] && t.toolContract == map[]
    && t.maxTurns == None && t.maxToolCalls == None && !t.HasAppBindings()
  }

  /** The gather step: an authored prompt wins; else a model step with the default prompt when
      synthesizing, and a pure step when not. */
  predicate GatherSays(gather: Gather, synthesize: bool, prompt: string, t: TaskSpec) {
    match gather
    case GatherPrompt(text) => PlainModel(t, text)
    case GatherFrag(_) => false
    case Default => if synthesize then PlainModel(t, prompt) else t.kind == Pure && t.prompt == "" && t.params == map[]
  }

  lemma SinkSays(gather: Gather, synthesize: bool, prompt: string)
    ensures match gather
      case GatherFrag(f) => Sink(gather, synthesize, prompt) == Reuse(f)
      case _ => Sink(gather, synthesize, prompt).Make? && GatherSays(gather, synthesize, prompt, Sink(gather, synthesize, prompt).spec)
  {
  }

  function Prompts(texts: seq<string>): (ps: seq<Participant>)
    ensures |ps| == |texts| && forall i :: 0 <= i < |texts| ==> ps[i] == Prompt(texts[i])
  {
    seq(|texts|, i requires 0 <= i < |texts| => Prompt(texts[i]))
  }

  function PromptSpecs(texts: seq<string>, goal: string): (specs: seq<TaskSpec>)
    ensures |specs| == |texts| && forall i :: 0 <= i < |texts| ==> PlainModel(specs[i], JoinGoal(texts[i], goal))
  {
    seq(|texts|, i requires 0 <= i < |texts| => PromptSpec(JoinGoal(texts[i], goal)))
  }

  lemma {:induction false} PromptPlans(texts: seq<string>, goal: string)
    ensures PlanAll(Prompts(texts), goal) == Ok(Plans(PromptSpecs(texts, goal)))
  {
    if texts == [] {
      assert Plans(PromptSpecs(texts, goal)) == [];
    } else {
      var n := |texts| - 1;
      PromptPlans(texts[..n], goal);
      assert Prompts(texts)[..n] == Prompts(texts[..n]);
      assert PromptSpecs(texts, goal)[..n] == PromptSpecs(texts[..n], goal);
      assert Plans(PromptSpecs(texts, goal)) == Plans(PromptSpecs(texts[..n], goal)) + [Make(PromptSpec(JoinGoal(texts[n], goal)))];
    }
  }

  /** A swarm of prompts adds one model step per prompt, each asked its prompt with the goal
      after it, and the gather step the options ask for; compiled, these are the nodes in
      order, all feeding the gather step (`SwarmIsStar`). */
  lemma SwarmOfPrompts(texts: seq<string>, goal: string, gather: Gather, synthesize: bool)
    requires !gather.GatherFrag?
    ensures PlanAll(Prompts(texts), goal) == Ok(Plans(PromptSpecs(texts, goal)))
    ensures forall i :: 0 <= i < |texts| ==> PlainModel(PromptSpecs(texts, goal)[i], JoinGoal(texts[i], goal))
    ensures var sink := Sink(gather, synthesize, SWARM_GATHER);
      sink.Make? && GatherSays(gather, synthesize, SWARM_GATHER, sink.spec)
  {
    PromptPlans(texts, goal);
    SinkSays(gather, synthesize, SWARM_GATHER);
  }

  /** What `task.model` makes of its options; an unknown reasoning mode is refused. */
  lemma ModelSpecMeaning(prompt: string, params: map<string, string>, o: StepOptions)
    ensures ModelSpec(prompt, params, o).Err? <==>
      o.reasoning.Some? && o.reasoning.value != "full" && o.reasoning.value != "minimal" && o.reasoning.value != "off" && o.reasoning.value != "strip"
    ensures ModelSpec(prompt, params, o).Ok? ==>
      var t := ModelSpec(prompt, params, o).value;
      && t.kind == Model && t.modelId == o.model && t.prompt == prompt && t.maxTurns == o.maxTurns && t.maxToolCalls == o.maxToolCalls
      && t.appSkills == o.skills && t.appConnections == o.connections && t.appDatasets == o.datasets && t.appApps == o.apps
      && (forall k :: k in t.params <==> k in params || (o.reasoning.Some? && k == "reasoning"))
      && (o.reasoning.Some? ==> t.params["reasoning"] == o.reasoning.value)
      && (forall k :: k in params && !(o.reasoning.Some? && k == "reasoning") ==> t.params[k] == params[k])
      && (match o.tools
          case NoTools => t.toolContract == map[]
          case Named(names) => t.toolContract.Keys == Elems(names) && forall n :: n in names ==> t.toolContract[n] == "1"
          case Versioned(contract) => t.toolContract == contract)
  {
    assert "full" in ["full", "minimal", "off", "strip"];
  }

  /** What a participant becomes: an existing step stays itself; a prompt, alone or with tools,
      and an agent become a new model step whose prompt ends in the goal. */
  lemma PlanMeaning(p: Participant, goal: string)
    ensures match p
      case Prompt(text) => exists t :: Plan(p, goal) == Ok(Make(t)) && PlainModel(t, JoinGoal(text, goal))
      case PromptTools(text, tools) =>
        exists t :: Plan(p, goal) == Ok(Make(t)) && t.kind == Model && t.prompt == JoinGoal(text, goal) && t.toolContract == GrantsToContract(tools)
      case Existing(f) => Plan(p, goal) == Ok(Reuse(f))
      case SubFlow(None) => Plan(p, goal).Err?
      case SubFlow(Some(f)) => Plan(p, goal) == Ok(Reuse(f))
      case Agent(base, o) =>
        Plan(p, goal).Ok? ==>
          && Plan(p, goal).value.Make?
          && var t := Plan(p, goal).value.spec;
             && t.kind == Model && t.modelId == o.model && t.prompt == (if base == "" then goal else JoinGoal(base, goal))
             && t.maxTurns == o.maxTurns && t.maxToolCalls == o.maxToolCalls && !t.HasAppBindings()
  {
    match p
    case Prompt(text) =>
      var t := PromptSpec(JoinGoal(text, goal));
      assert Plan(p, goal) == Ok(Make(t)) && PlainModel(t, JoinGoal(text, goal));
    case PromptTools(text, tools) =>
      var o := NO_OPTIONS.(tools := tools);
      ModelSpecMeaning(JoinGoal(text, goal), map[], o);
      var t := ModelSpec(JoinGoal(text, goal), map[], o).value;
      assert Plan(p, goal) == Ok(Make(t));
    case _ =>
  }

  /** Without a planner of its own a supervisor asks the default question with the goal after it;
      without a reviewer each round asks the default question, and a reviewer is never told the
      goal. */
  lemma DefaultsSay(goal: string, p: Participant)
    ensures Lead(None, goal).Ok? && Lead(None, goal).value.Make? && PlainModel(Lead(None, goal).value.spec, JoinGoal(SUPERVISOR_PLANNER, goal))
    ensures Lead(Some(p), goal) == Plan(p, goal)
    ensures ReviewPlan(None).Ok? && ReviewPlan(None).value.Make? && PlainModel(ReviewPlan(None).value.spec, REVIEW)
    ensures ReviewPlan(Some(p)) == Plan(p, "")
  {
  }
}
