/** Runs of the provenance factory over one generator: every transition, in any order, from any
    earlier scope or prepared work. */
module Lineage {
  import opened Wrappers
  import opened Identity
  import opened Provenance
  import opened Scopes

  // A scope with where it came from: the root of its chain, the child and prepare hops since that
  // root, the scope that a defaulted cause names, the scope that it retries, and the move that made it.
  datatype Node = Node(scope: Scope, root: nat, hops: nat, parent: Option<nat>, prior: Option<nat>, move: Move)

  datatype Prepared = Prepared(work: Work, root: nat, hops: nat, parent: Option<nat>)

  datatype Journal = Journal(nodes: seq<Node>, works: seq<Prepared>, ids: Generator)

  datatype Move =
    | Open(root: RootSpec)
    | Replay(again: ReplaySpec)
    | Enter(root: RootSpec, hints: Incoming)
    | Child(at: nat, step: StepSpec)
    | PrepareWork(at: nat, spec: WorkSpec)
    | ExecutePrepared(item: nat, executor: Actor, attempt: int)
    | ExecuteAgain(at: nat, executor: Actor, attempt: int)
    | Retry(at: nat, executor: Actor)

  predicate Possible(j: Journal, m: Move) {
    match m
    case Open(_) | Replay(_) => true
    case Enter(_, hints) => ValidIncoming(hints)
    case Child(at, _) => at < |j.nodes|
    case PrepareWork(at, _) => at < |j.nodes|
    case ExecutePrepared(item, _, _) => item < |j.works|
    case ExecuteAgain(at, _, _) => at < |j.nodes|
    case Retry(at, _) => at < |j.nodes|
  }

  // Scopes and works in a journal were built by the factory.
  predicate Built(j: Journal) {
    && j.ids.Valid()
    && (forall i | 0 <= i < |j.nodes| :: ValidScope(j.nodes[i].scope))
    && (forall i | 0 <= i < |j.works| :: ValidWork(j.works[i].work))
  }

  function Plan(j: Journal, m: Move): Result<Emission, Failure>
    requires Built(j) && Possible(j, m) && !m.PrepareWork?
  {
    match m
    case Open(root) => OpenPlan(root)
    case Replay(again) => ReplayPlan(again)
    case Enter(root, hints) => EnterPlan(root, hints)
    case Child(at, step) => ChildPlan(j.nodes[at].scope, step)
    case ExecutePrepared(item, executor, attempt) => ExecutePlan(j.works[item].work, executor, attempt)
    case ExecuteAgain(at, executor, attempt) => ExecutePlan(j.nodes[at].scope.work, executor, attempt)
    case Retry(at, executor) => RetryPlan(j.nodes[at].scope, executor)
  }

  // The bookkeeping that goes with a new scope.
  function Placed(j: Journal, m: Move, scope: Scope): Node
    requires Possible(j, m) && !m.PrepareWork?
  {
    match m
    case Open(_) | Replay(_) | Enter(_, _) => Node(scope, |j.nodes|, 0, None, None, m)
    case Child(at, step) =>
      var p := j.nodes[at];
      Node(scope, p.root, p.hops + 1, if step.cause.None? then Some(at) else None, None, m)
    case ExecutePrepared(item, _, _) =>
      var w := j.works[item];
      Node(scope, w.root, w.hops, w.parent, None, m)
    case ExecuteAgain(at, _, _) =>
      var p := j.nodes[at];
      Node(scope, p.root, p.hops, p.parent, None, m)
    case Retry(at, _) =>
      var p := j.nodes[at];
      Node(scope, p.root, p.hops, p.parent, Some(at), m)
  }

  function Advance(j: Journal, m: Move, t: Tick): (j': Journal)
    requires Built(j)
    ensures Built(j')
  {
    hide ValidateWork, ValidId, Mint;
    if !Possible(j, m) then j
    else if m.PrepareWork? then
      match Prepare(j.nodes[m.at].scope, m.spec)
      case Err(_) => j
      case Ok(w) =>
        var p := j.nodes[m.at];
        j.(works := j.works + [Prepared(w, p.root, p.hops + 1, if m.spec.cause.None? then Some(m.at) else None)])
    else
      match Perform(j.ids, Plan(j, m), t)
      case (g, Err(_)) => j.(ids := g)
      case (g, Ok(scope)) =>
        EmitAnswers(j.ids, Plan(j, m).value, t);
        j.(ids := g, nodes := j.nodes + [Placed(j, m, scope)])
  }

  // ----- what every journal keeps -----

  // Work of one chain: what is constant along it, and depth counting hops when it is known at all.
  predicate Kin(w: Work, hops: nat, root: Work) {
    && w.correlationId == root.correlationId && w.correlationSource == root.correlationSource
    && w.attribution == root.attribution && w.origin == root.origin && w.replay == root.replay
    && root.depth == (if root.correlationSource.Local? then Some(0) else None)
    && w.depth == if root.depth.Some? then Some(hops) else None
  }

  predicate FromParent(nodes: seq<Node>, w: Work, parent: Option<nat>) {
    parent.Some? ==>
      parent.value < |nodes| && w.causation == Some(Reference(ScopeRef, nodes[parent.value].scope.scopeId))
  }

  predicate NodeOk(nodes: seq<Node>, i: nat)
    requires i < |nodes|
  {
    var n := nodes[i];
    && ValidScope(n.scope)
    && n.root <= i && nodes[n.root].root == n.root && nodes[n.root].hops == 0
    && Kin(n.scope.work, n.hops, nodes[n.root].scope.work)
    && FromParent(nodes[..i], n.scope.work, n.parent)
    && (n.prior.None? <==> n.scope.previousAttempt.None?)
    && (n.prior.Some? ==>
          && n.prior.value < i
          && n.scope.work == nodes[n.prior.value].scope.work
          && n.scope.attempt == nodes[n.prior.value].scope.attempt + 1
          && n.scope.previousAttempt == Some(nodes[n.prior.value].scope.scopeId))
  }

  predicate PreparedOk(nodes: seq<Node>, p: Prepared) {
    && ValidWork(p.work) && p.root < |nodes| && nodes[p.root].root == p.root && nodes[p.root].hops == 0
    && Kin(p.work, p.hops, nodes[p.root].scope.work)
    && FromParent(nodes, p.work, p.parent)
  }

  // Whatever g mints from here on comes after id.
  ghost predicate Below(id: ID, g: Generator)
    requires g.Valid()
  {
    forall r, e :: Mint(g, r, e).1.Ok? ==> Less(id, Mint(g, r, e).1.value)
  }

  ghost predicate Ordered(j: Journal)
    requires j.ids.Valid()
  {
    && (forall a, b | 0 <= a < b < |j.nodes| :: Less(j.nodes[a].scope.scopeId, j.nodes[b].scope.scopeId))
    && (forall a | 0 <= a < |j.nodes| :: Below(j.nodes[a].scope.scopeId, j.ids))
  }

  ghost predicate Sound(j: Journal) {
    && Built(j)
    && (forall i | 0 <= i < |j.nodes| :: NodeOk(j.nodes, i))
    && (forall i | 0 <= i < |j.works| :: PreparedOk(j.nodes, j.works[i]))
    && Ordered(j)
  }

  // ----- ids -----

  lemma MintedIsBelow(g: Generator, r: Reading, e: Option<Ten>)
    requires g.Valid() && Mint(g, r, e).1.Ok?
    ensures Below(Mint(g, r, e).1.value, Mint(g, r, e).0)
  {
    var (g', res) := Mint(g, r, e);
    hide EncodeV7, Less;
    forall r', e' | Mint(g', r', e').1.Ok?
      ensures Less(res.value, Mint(g', r', e').1.value)
    {
      var g'' := Mint(g', r', e').0;
      StampOrder(g'.last.value, g'.counter, e.value, g''.last.value, g''.counter, e'.value);
    }
  }

  lemma BelowStays(id: ID, g: Generator, r: Reading, e: Option<Ten>)
    requires g.Valid() && Below(id, g)
    ensures Below(id, Mint(g, r, e).0)
  {
    var (g', res) := Mint(g, r, e);
    if res.Ok? {
      MintedIsBelow(g, r, e);
      hide Mint, Less;
      forall r', e' | Mint(g', r', e').1.Ok?
        ensures Less(id, Mint(g', r', e').1.value)
      {
        LessTransitive(id, res.value, Mint(g', r', e').1.value);
      }
    }
  }

  lemma EmittedId(g: Generator, plan: Result<Emission, Failure>, t: Tick)
    requires g.Valid()
    ensures var (g', r) := Perform(g, plan, t);
            && (g' == g || g' == Mint(g, t.idClock, t.entropy).0)
            && (r.Ok? ==>
                  && g' == Mint(g, t.idClock, t.entropy).0
                  && Mint(g, t.idClock, t.entropy).1 == Ok(r.value.scopeId))
  {
    hide Mint, ValidateWork, ValidId;
  }

  lemma OrderKept(j: Journal, plan: Result<Emission, Failure>, t: Tick, j': Journal, n: Node)
    requires Built(j) && Ordered(j) && j'.ids == Perform(j.ids, plan, t).0
    requires match Perform(j.ids, plan, t).1
             case Err(_) => j'.nodes == j.nodes
             case Ok(s) => n.scope == s && j'.nodes == j.nodes + [n]
    ensures Ordered(j')
  {
    hide Emit, Mint, Less, ValidScope, ValidWork;
    EmittedId(j.ids, plan, t);
    forall a | 0 <= a < |j.nodes|
      ensures Below(j.nodes[a].scope.scopeId, j'.ids)
    {
      if j'.ids != j.ids { BelowStays(j.nodes[a].scope.scopeId, j.ids, t.idClock, t.entropy); }
    }
    if Perform(j.ids, plan, t).1.Ok? {
      MintedIsBelow(j.ids, t.idClock, t.entropy);
    }
  }

  // ----- one transition -----

  lemma ChildKin(parent: Scope, workId: Option<ID>, operation: string, cause: Option<Reference>,
                 hops: nat, root: Work, id: ID)
    requires ValidScope(parent) && Kin(parent.work, hops, root)
    requires ChildWork(parent, workId, operation, cause).Ok?
    ensures var w := Fill(ChildWork(parent, workId, operation, cause).value, id);
            && Kin(w, hops + 1, root) && w.operation == operation
            && w.causation == (if cause.None? then Some(Reference(ScopeRef, parent.scopeId)) else cause)
  {
    hide ValidateWork, ValidId, ValidScope;
  }

  lemma RootKin(j: Journal, m: Move, id: ID)
    requires Built(j) && (m.Open? || m.Replay? || m.Enter?) && Possible(j, m) && Plan(j, m).Ok?
    ensures var w := Fill(Plan(j, m).value.draft, id);
            && Kin(w, 0, w)
            && (w.depth.None? <==> m.Enter? && m.hints.decision.Continued?)
            && Plan(j, m).value.attempt == 1 && Plan(j, m).value.previous.None?
  {
    hide ValidId, ValidateWork, ValidOperation, ValidAttribution;
  }

  lemma NodesGrow(nodes: seq<Node>, more: seq<Node>, i: nat)
    requires i < |nodes| && NodeOk(nodes, i)
    ensures NodeOk(nodes + more, i)
  {
    hide ValidScope, Kin;
    assert (nodes + more)[..i] == nodes[..i];
  }

  lemma PlacedOk(j: Journal, m: Move, s: Scope)
    requires Sound(j) && Possible(j, m) && !m.PrepareWork? && Plan(j, m).Ok? && Answers(s, Plan(j, m).value)
    ensures NodeOk(j.nodes + [Placed(j, m, s)], |j.nodes|)
  {
    hide ValidScope, ValidWork, ValidId, ValidateWork, Below, Less, NodeOk;
    match m {
      case Child(at, _) => ChildPlaced(j, m, s);
      case ExecutePrepared(item, _, _) => PreparedPlaced(j, m, s);
      case ExecuteAgain(at, _, _) => AgainPlaced(j, m, s);
      case Retry(at, _) => AgainPlaced(j, m, s);
      case _ => RootPlaced(j, m, s);
    }
  }

  // NodeOk for a node put behind others, in terms of those others alone.
  lemma LastOk(nodes: seq<Node>, n: Node)
    requires ValidScope(n.scope)
    requires n.root < |nodes| && nodes[n.root].root == n.root && nodes[n.root].hops == 0
    requires Kin(n.scope.work, n.hops, nodes[n.root].scope.work)
    requires FromParent(nodes, n.scope.work, n.parent)
    requires n.prior.None? <==> n.scope.previousAttempt.None?
    requires n.prior.Some? ==>
               && n.prior.value < |nodes|
               && var before := nodes[n.prior.value].scope;
               n.scope.work == before.work && n.scope.attempt == before.attempt + 1
               && n.scope.previousAttempt == Some(before.scopeId)
    ensures NodeOk(nodes + [n], |nodes|)
  {
    hide ValidScope, Kin, FromParent;
    assert (nodes + [n])[..|nodes|] == nodes;
  }

  lemma RootPlaced(j: Journal, m: Move, s: Scope)
    requires Built(j) && Possible(j, m) && (m.Open? || m.Replay? || m.Enter?)
    requires Plan(j, m).Ok? && Answers(s, Plan(j, m).value)
    ensures NodeOk(j.nodes + [Placed(j, m, s)], |j.nodes|)
  {
    RootKin(j, m, s.scopeId);
    assert s.work == Fill(Plan(j, m).value.draft, s.scopeId);
    hide ValidScope, ValidWork, Plan, Kin, Fill;
    var n := Placed(j, m, s);
    var nodes := j.nodes + [n];
    assert nodes[|j.nodes|] == n == Node(s, |j.nodes|, 0, None, None, m);
    assert Kin(n.scope.work, 0, n.scope.work);
  }

  lemma ChildAnswer(j: Journal, m: Move, s: Scope, hops: nat, root: Work)
    requires Built(j) && Possible(j, m) && m.Child? && Plan(j, m).Ok? && Answers(s, Plan(j, m).value)
    requires Kin(j.nodes[m.at].scope.work, hops, root)
    ensures ValidScope(s) && s.previousAttempt.None? && Kin(s.work, hops + 1, root)
    ensures m.step.cause.None? ==> s.work.causation == Some(Reference(ScopeRef, j.nodes[m.at].scope.scopeId))
  {
    hide ValidScope, ValidWork, ValidId, Kin, Fill, ChildWork;
    var parent, step := j.nodes[m.at].scope, m.step;
    ChildKin(parent, step.workId, step.operation, step.cause, hops, root, s.scopeId);
  }

  lemma ChildPlaced(j: Journal, m: Move, s: Scope)
    requires Built(j) && Possible(j, m) && m.Child? && Plan(j, m).Ok? && Answers(s, Plan(j, m).value)
    requires NodeOk(j.nodes, m.at)
    ensures NodeOk(j.nodes + [Placed(j, m, s)], |j.nodes|)
  {
    hide ValidScope, ValidWork, ValidId, ValidateWork, Kin;
    var p := j.nodes[m.at];
    ChildAnswer(j, m, s, p.hops, j.nodes[p.root].scope.work);
    var n := Node(s, p.root, p.hops + 1, if m.step.cause.None? then Some(m.at) else None, None, m);
    assert Placed(j, m, s) == n;
    assert FromParent(j.nodes, s.work, n.parent);
    assert j.nodes[p.root].root == p.root && j.nodes[p.root].hops == 0 && p.root < |j.nodes|;
    hide *;
    LastOk(j.nodes, n);
  }

  lemma PreparedPlaced(j: Journal, m: Move, s: Scope)
    requires Built(j) && Possible(j, m) && m.ExecutePrepared? && Plan(j, m).Ok? && Answers(s, Plan(j, m).value)
    requires PreparedOk(j.nodes, j.works[m.item])
    ensures NodeOk(j.nodes + [Placed(j, m, s)], |j.nodes|)
  {
    DraftOfWork(j.works[m.item].work, s.scopeId);
    hide NodeOk, Ordered, ValidScope, ValidWork, ValidId, Kin, Fill;
    LastOk(j.nodes, Placed(j, m, s));
  }

  lemma AgainPlaced(j: Journal, m: Move, s: Scope)
    requires Built(j) && Possible(j, m) && (m.ExecuteAgain? || m.Retry?)
    requires Plan(j, m).Ok? && Answers(s, Plan(j, m).value) && NodeOk(j.nodes, m.at)
    ensures NodeOk(j.nodes + [Placed(j, m, s)], |j.nodes|)
  {
    hide ValidScope, ValidWork, ValidId, ValidateWork, Kin;
    var p := j.nodes[m.at];
    DraftOfWork(p.scope.work, s.scopeId);
    assert FromParent(j.nodes, p.scope.work, p.parent);
    hide NodeOk, PreparedOk, Ordered, ValidScope, ValidWork, ValidId, Kin, Fill, FromParent;
    LastOk(j.nodes, Placed(j, m, s));
  }

  lemma AdvanceKeepsSound(j: Journal, m: Move, t: Tick)
    requires Sound(j)
    ensures Sound(Advance(j, m, t))
    ensures j.nodes <= Advance(j, m, t).nodes && j.works <= Advance(j, m, t).works
  {
    if Possible(j, m) && m.PrepareWork? {
      PrepareKeepsSound(j, m, t);
    } else if Possible(j, m) {
      ScopeKeepsSound(j, m, t);
    }
  }

  lemma ScopeKeepsSound(j: Journal, m: Move, t: Tick)
    requires Sound(j) && Possible(j, m) && !m.PrepareWork?
    ensures Sound(Advance(j, m, t))
    ensures j.nodes <= Advance(j, m, t).nodes && j.works == Advance(j, m, t).works
  {
    hide Below, Less, Mint, Emit, Kin, ValidWork, ValidScope, Plan;
    var j' := Advance(j, m, t);
    if Perform(j.ids, Plan(j, m), t).1.Ok? {
      var s := Perform(j.ids, Plan(j, m), t).1.value;
      EmitAnswers(j.ids, Plan(j, m).value, t);
      PlacedOk(j, m, s);
      OrderKept(j, Plan(j, m), t, j', Placed(j, m, s));
    } else {
      var any :| true;
      OrderKept(j, Plan(j, m), t, j', any);
    }
    var more := j'.nodes[|j.nodes|..];
    assert j'.nodes == j.nodes + more;
    hide Perform, Advance, Ordered;
    forall i | 0 <= i < |j.nodes|
      ensures NodeOk(j'.nodes, i)
    {
      NodesGrow(j.nodes, more, i);
    }
    hide NodeOk;
    forall i | 0 <= i < |j.works|
      ensures PreparedOk(j'.nodes, j.works[i])
    {
      assert PreparedOk(j.nodes, j.works[i]);
    }
  }

  lemma PrepareKeepsSound(j: Journal, m: Move, t: Tick)
    requires Sound(j) && Possible(j, m) && m.PrepareWork?
    ensures Sound(Advance(j, m, t)) && j.nodes == Advance(j, m, t).nodes && j.works <= Advance(j, m, t).works
  {
    hide Below, Less, Kin, ValidWork, ValidScope, ValidId, ChildWork, Fill;
    var p := j.nodes[m.at];
    assert NodeOk(j.nodes, m.at);
    hide NodeOk;
    if Prepare(p.scope, m.spec).Ok? {
      ChildKin(p.scope, Some(m.spec.workId), m.spec.operation, m.spec.cause, p.hops,
               j.nodes[p.root].scope.work, m.spec.workId);
    }
  }

  // ----- whole runs -----

  function Run(moves: seq<(Move, Tick)>): (j: Journal)
    ensures Built(j)
  {
    if moves == [] then Journal([], [], INITIAL)
    else
      var (m, t) := moves[|moves| - 1];
      Advance(Run(moves[..|moves| - 1]), m, t)
  }

  lemma {:induction false} RunSound(moves: seq<(Move, Tick)>)
    ensures Sound(Run(moves))
  {
    if moves == [] {
    } else {
      var (m, t) := moves[|moves| - 1];
      RunSound(moves[..|moves| - 1]);
      AdvanceKeepsSound(Run(moves[..|moves| - 1]), m, t);
    }
  }

  // ----- where the ids of a run come from -----

  // The work id that the caller of a move chose.
  function Supplied(m: Move): Option<ID> {
    match m
    case Open(root) => root.workId
    case Replay(again) => again.workId
    case Enter(root, _) => root.workId
    case Child(_, step) => step.workId
    case PrepareWork(_, spec) => Some(spec.workId)
    case _ => None
  }

  predicate ContinuedEntry(m: Move) {
    m.Enter? && m.hints.decision.Continued?
  }

  // A work id was chosen by a caller, or is the id of a scope of the run.
  predicate WorkIdTraced(moves: seq<(Move, Tick)>, nodes: seq<Node>, id: ID) {
    || (exists k | 0 <= k < |moves| :: Supplied(moves[k].0) == Some(id))
    || (exists i | 0 <= i < |nodes| :: nodes[i].scope.scopeId == id)
  }

  predicate RootMove(m: Move) {
    m.Open? || m.Replay? || m.Enter?
  }

  // The scope carries what its move asked for, of the scopes and works before it.
  predicate Served(nodes: seq<Node>, works: seq<Prepared>, i: nat)
    requires i < |nodes|
  {
    var s := nodes[i].scope;
    match nodes[i].move
    case Open(root) => Opened(root, s)
    case Replay(again) => ReplayOf(again, s)
    case Enter(root, hints) => Entered(root, hints, s)
    case Child(at, step) => at < i && ChildOf(nodes[at].scope, step, s)
    case PrepareWork(_, _) => false
    case ExecutePrepared(item, executor, attempt) =>
      item < |works| && ExecutionOf(works[item].work, executor, attempt, s)
    case ExecuteAgain(at, executor, attempt) => at < i && ExecutionOf(nodes[at].scope.work, executor, attempt, s)
    case Retry(at, executor) => at < i && RetryOf(nodes[at].scope, executor, s)
  }

  // The move that made a scope is one of the run's, at the time that the scope names.
  predicate StartedBy(moves: seq<(Move, Tick)>, n: Node) {
    exists k | 0 <= k < |moves| :: moves[k].0 == n.move && moves[k].1.clock == Millis(n.scope.startedAt)
  }

  predicate NodeTraced(moves: seq<(Move, Tick)>, j: Journal, i: nat)
    requires i < |j.nodes|
  {
    && StartedBy(moves, j.nodes[i]) && Served(j.nodes, j.works, i)
    && WorkIdTraced(moves, j.nodes, j.nodes[i].scope.work.workId)
    && (j.nodes[i].root == i ==> RootMove(j.nodes[i].move))
  }

  // Prepared work carries what its move asked for, of a scope of the run.
  predicate WorkTraced(moves: seq<(Move, Tick)>, nodes: seq<Node>, w: Work) {
    exists k | 0 <= k < |moves| ::
      && moves[k].0.PrepareWork? && moves[k].0.at < |nodes|
      && var spec := moves[k].0.spec;
         w == OneHop(nodes[moves[k].0.at].scope, spec.workId, spec.operation, spec.cause)
  }

  ghost predicate Traced(moves: seq<(Move, Tick)>, j: Journal) {
    && (forall i | 0 <= i < |j.nodes| :: NodeTraced(moves, j, i))
    && (forall i | 0 <= i < |j.works| ::
          WorkIdTraced(moves, j.nodes, j.works[i].work.workId) && WorkTraced(moves, j.nodes, j.works[i].work))
  }

  lemma WorkIdStaysTraced(moves: seq<(Move, Tick)>, move: (Move, Tick), nodes: seq<Node>, more: seq<Node>, id: ID)
    requires WorkIdTraced(moves, nodes, id)
    ensures WorkIdTraced(moves + [move], nodes + more, id)
  {
    var all := moves + [move];
    if k :| 0 <= k < |moves| && Supplied(moves[k].0) == Some(id) {
      assert Supplied(all[k].0) == Some(id);
    } else {
      var i :| 0 <= i < |nodes| && nodes[i].scope.scopeId == id;
      assert (nodes + more)[i].scope.scopeId == id;
    }
  }

  lemma WorkStaysTraced(moves: seq<(Move, Tick)>, move: (Move, Tick), nodes: seq<Node>, more: seq<Node>, w: Work)
    requires WorkTraced(moves, nodes, w)
    ensures WorkTraced(moves + [move], nodes + more, w)
  {
    hide OneHop;
    var k :| 0 <= k < |moves| && moves[k].0.PrepareWork? && moves[k].0.at < |nodes|
             && w == OneHop(nodes[moves[k].0.at].scope, moves[k].0.spec.workId, moves[k].0.spec.operation,
                            moves[k].0.spec.cause);
    assert (moves + [move])[k].0 == moves[k].0;
  }

  lemma NodeStaysTraced(moves: seq<(Move, Tick)>, move: (Move, Tick), j: Journal, j': Journal, i: nat)
    requires i < |j.nodes| && NodeTraced(moves, j, i) && j.nodes <= j'.nodes && j.works <= j'.works
    ensures NodeTraced(moves + [move], j', i)
  {
    hide WorkIdTraced, Opened, ReplayOf, Entered, ChildOf, ExecutionOf, RetryOf;
    var more := j'.nodes[|j.nodes|..];
    assert j'.nodes == j.nodes + more;
    WorkIdStaysTraced(moves, move, j.nodes, more, j.nodes[i].scope.work.workId);
    var n := j.nodes[i];
    var k :| 0 <= k < |moves| && moves[k].0 == n.move && moves[k].1.clock == Millis(n.scope.startedAt);
    assert (moves + [move])[k] == moves[k];
  }

  // The work id of what a move builds: its caller's choice, the id of an earlier work, or the scope id.
  lemma PlannedWorkId(j: Journal, m: Move, id: ID)
    requires Built(j) && Possible(j, m) && !m.PrepareWork? && Plan(j, m).Ok?
    ensures Fill(Plan(j, m).value.draft, id).workId
            == match m
               case ExecutePrepared(item, _, _) => j.works[item].work.workId
               case ExecuteAgain(at, _, _) => j.nodes[at].scope.work.workId
               case Retry(at, _) => j.nodes[at].scope.work.workId
               case _ => Supplied(m).GetOr(id)
  {
    hide ValidId, ValidateWork, ValidScope, ValidWork;
  }

  // What a move makes is what it asked for.
  lemma MoveServed(j: Journal, m: Move, t: Tick)
    requires Built(j) && Possible(j, m) && !m.PrepareWork? && Perform(j.ids, Plan(j, m), t).1.Ok?
    ensures var s := Perform(j.ids, Plan(j, m), t).1.value;
            && IssuedAt(j.ids, t, s) && Served(j.nodes + [Placed(j, m, s)], j.works, |j.nodes|)
  {
    hide Perform, Mint, ValidScope, ValidWork, ValidId, OpenPlan, ReplayPlan, EnterPlan, ChildPlan, ExecutePlan,
         RetryPlan, Opened, ReplayOf, Entered, ChildOf, ExecutionOf, RetryOf, IdIsFree, Runnable, RootFits, ReplayFits,
         HopFits, WorkIdFits, TakenByChild, CausingScope, CauseIsElsewhere, IssuedAt;
    match m {
      case Open(root) => OpenAnswers(j.ids, root, t);
      case Replay(again) => ReplayAnswers(j.ids, again, t);
      case Enter(root, hints) => EnterAnswers(j.ids, root, hints, t);
      case Child(at, step) => ChildAnswers(j.ids, j.nodes[at].scope, step, t);
      case ExecutePrepared(item, executor, attempt) =>
        ExecuteAnswers(j.ids, j.works[item].work, executor, attempt, t);
      case ExecuteAgain(at, executor, attempt) =>
        assert ValidScope(j.nodes[at].scope);
        PartsOfScope(j.nodes[at].scope);
        ExecuteAnswers(j.ids, j.nodes[at].scope.work, executor, attempt, t);
      case Retry(at, executor) => RetryAnswers(j.ids, j.nodes[at].scope, executor, t);
    }
  }

  // The work that an execution or a retry takes over.
  lemma EarlierWorkTraced(moves: seq<(Move, Tick)>, j: Journal, m: Move, id: ID)
    requires Built(j) && Traced(moves, j) && Possible(j, m) && (m.ExecutePrepared? || m.ExecuteAgain? || m.Retry?)
    requires Plan(j, m).Ok?
    ensures WorkIdTraced(moves, j.nodes, Fill(Plan(j, m).value.draft, id).workId)
  {
    PlannedWorkId(j, m, id);
    hide Plan, Fill, WorkIdTraced, WorkTraced, Served, StartedBy, Built;
    if m.ExecutePrepared? {
      assert WorkIdTraced(moves, j.nodes, j.works[m.item].work.workId);
    } else {
      assert NodeTraced(moves, j, m.at);
    }
  }

  lemma NewWorkIdTraced(moves: seq<(Move, Tick)>, j: Journal, m: Move, t: Tick, n: Node)
    requires Built(j) && Traced(moves, j) && Possible(j, m) && !m.PrepareWork? && Plan(j, m).Ok?
    requires n.scope.work == Fill(Plan(j, m).value.draft, n.scope.scopeId)
    ensures WorkIdTraced(moves + [(m, t)], j.nodes + [n], n.scope.work.workId)
  {
    hide Plan, Fill, Traced, Built, WorkIdTraced;
    var id := n.scope.work.workId;
    if m.ExecutePrepared? || m.ExecuteAgain? || m.Retry? {
      EarlierWorkTraced(moves, j, m, n.scope.scopeId);
      WorkIdStaysTraced(moves, (m, t), j.nodes, [n], id);
    } else {
      PlannedWorkId(j, m, n.scope.scopeId);
      if Supplied(m).Some? {
        MoveSupplies(moves, (m, t), j.nodes + [n], id);
      } else {
        ScopeIdTraced(moves + [(m, t)], j.nodes, n);
      }
    }
  }

  lemma ScopeIdTraced(moves: seq<(Move, Tick)>, nodes: seq<Node>, n: Node)
    ensures WorkIdTraced(moves, nodes + [n], n.scope.scopeId)
  {
    assert (nodes + [n])[|nodes|].scope.scopeId == n.scope.scopeId;
  }

  // Only roots start a chain.
  lemma RootOfPlaced(j: Journal, m: Move, s: Scope)
    requires Sound(j) && Possible(j, m) && !m.PrepareWork?
    ensures Placed(j, m, s).root < |j.nodes| || m.Open? || m.Replay? || m.Enter?
  {
    hide ValidScope, ValidWork, Kin, FromParent, Ordered, Built;
    if m.Child? || m.ExecuteAgain? || m.Retry? {
      assert NodeOk(j.nodes, m.at);
    } else if m.ExecutePrepared? {
      assert PreparedOk(j.nodes, j.works[m.item]);
    }
  }

  lemma NewNodeTraced(moves: seq<(Move, Tick)>, j: Journal, m: Move, t: Tick, j': Journal)
    requires Sound(j) && Traced(moves, j) && Possible(j, m) && !m.PrepareWork?
    requires Perform(j.ids, Plan(j, m), t).1.Ok? && j'.works == j.works
    requires j'.nodes == j.nodes + [Placed(j, m, Perform(j.ids, Plan(j, m), t).1.value)]
    ensures NodeTraced(moves + [(m, t)], j', |j.nodes|)
  {
    hide Mint, Emit, NodeOk, PreparedOk, Ordered, ValidScope, ValidWork, WorkIdTraced, Traced, Served, Fill, Plan;
    var s := Perform(j.ids, Plan(j, m), t).1.value;
    var n := Placed(j, m, s);
    assert n.scope == s && n.move == m;
    EmitAnswers(j.ids, Plan(j, m).value, t);
    MoveServed(j, m, t);
    hide Perform, Placed;
    NewWorkIdTraced(moves, j, m, t, n);
    assert (moves + [(m, t)])[|moves|] == (m, t);
    assert StartedBy(moves + [(m, t)], n);
    RootOfPlaced(j, m, s);
  }

  lemma NewWorkTraced(moves: seq<(Move, Tick)>, j: Journal, m: Move, t: Tick)
    requires Built(j) && Possible(j, m) && m.PrepareWork? && Prepare(j.nodes[m.at].scope, m.spec).Ok?
    ensures var w := Prepare(j.nodes[m.at].scope, m.spec).value;
            WorkIdTraced(moves + [(m, t)], j.nodes, w.workId) && WorkTraced(moves + [(m, t)], j.nodes, w)
  {
    hide Prepare, ValidScope, ValidWork, WorkIdTraced, HopFits, WorkIdFits;
    PrepareAnswers(j.nodes[m.at].scope, m.spec);
    MoveSupplies(moves, (m, t), j.nodes, m.spec.workId);
    assert (moves + [(m, t)])[|moves|].0 == m;
  }

  lemma {:induction false} RunTraced(moves: seq<(Move, Tick)>)
    ensures Traced(moves, Run(moves))
  {
    if moves == [] {
    } else {
      var before := moves[..|moves| - 1];
      var (m, t) := moves[|moves| - 1];
      assert moves == before + [(m, t)];
      RunTraced(before);
      RunSound(before);
      StepTraced(before, Run(before), m, t);
    }
  }

  lemma StepTraced(moves: seq<(Move, Tick)>, j: Journal, m: Move, t: Tick)
    requires Sound(j) && Traced(moves, j)
    ensures Traced(moves + [(m, t)], Advance(j, m, t))
  {
    hide Emit, Mint, Plan, Fill, NodeTraced, WorkIdTraced, WorkTraced, ValidScope, ValidWork, NodeOk, PreparedOk,
         Prepare, Ordered, Perform;
    AdvanceKeepsSound(j, m, t);
    var j' := Advance(j, m, t);
    var more := j'.nodes[|j.nodes|..];
    assert j'.nodes == j.nodes + more;
    forall i | 0 <= i < |j.nodes| ensures NodeTraced(moves + [(m, t)], j', i) {
      NodeStaysTraced(moves, (m, t), j, j', i);
    }
    forall i | 0 <= i < |j.works|
      ensures WorkIdTraced(moves + [(m, t)], j'.nodes, j.works[i].work.workId)
      ensures WorkTraced(moves + [(m, t)], j'.nodes, j.works[i].work)
    {
      WorkIdStaysTraced(moves, (m, t), j.nodes, more, j.works[i].work.workId);
      WorkStaysTraced(moves, (m, t), j.nodes, more, j.works[i].work);
    }
    if Possible(j, m) && m.PrepareWork? {
      if Prepare(j.nodes[m.at].scope, m.spec).Ok? { NewWorkTraced(moves, j, m, t); }
    } else if Possible(j, m) && Perform(j.ids, Plan(j, m), t).1.Ok? {
      NewNodeTraced(moves, j, m, t, j');
    }
  }

  lemma MoveSupplies(moves: seq<(Move, Tick)>, move: (Move, Tick), nodes: seq<Node>, id: ID)
    requires Supplied(move.0) == Some(id)
    ensures WorkIdTraced(moves + [move], nodes, id)
  {
    assert Supplied((moves + [move])[|moves|].0) == Some(id);
  }

  // What the root of a chain was asked to attribute its work to, and where it says the work came from.
  function AskedAttribution(m: Move): Attribution
    requires RootMove(m)
  {
    if m.Replay? then m.again.attribution else m.root.attribution
  }

  function AskedOrigin(m: Move): Option<Origin>
    requires RootMove(m)
  {
    if m.Replay? then Some(Replayed) else if ContinuedEntry(m) then None else Some(m.root.origin)
  }

  lemma RootServed(nodes: seq<Node>, works: seq<Prepared>, i: nat)
    requires i < |nodes| && Served(nodes, works, i) && RootMove(nodes[i].move)
    ensures var m, s := nodes[i].move, nodes[i].scope;
            && s.work.attribution == AskedAttribution(m) && s.work.origin == AskedOrigin(m)
            && (if ContinuedEntry(m) then Some(s.work.correlationId) == m.hints.correlation
                else s.work.correlationId == s.scopeId)
            && (s.work.correlationSource.External? <==> ContinuedEntry(m))
            && (s.work.depth.None? <==> ContinuedEntry(m))
            && (s.work.replay.Some? <==> m.Replay?)
            && (m.Replay? ==> s.work.replay.value.source == m.again.source)
  {
  }

  /** Along every chain of every run: correlation, attribution, origin and replay never change and are the
      root's: what its caller or, on the chains whose root is an entry with a continued hint, the hint
      asked for. Depth is the number of child and prepare hops, and stays unknown exactly on those chains. */
  lemma ChainsAreConstant(moves: seq<(Move, Tick)>, i: nat)
    requires i < |Run(moves).nodes|
    ensures var nodes := Run(moves).nodes;
            var n := nodes[i];
            && n.root <= i
            && var w, root, m := n.scope.work, nodes[n.root].scope, nodes[n.root].move;
            && w.correlationId == root.work.correlationId && w.replay == root.work.replay
            && RootMove(m) && w.attribution == AskedAttribution(m) && w.origin == AskedOrigin(m)
            && (if ContinuedEntry(m) then Some(w.correlationId) == m.hints.correlation
                else w.correlationId == root.scopeId)
            && (w.correlationSource.External? <==> ContinuedEntry(m))
            && (w.replay.Some? <==> m.Replay?) && (m.Replay? ==> w.replay.value.source == m.again.source)
            && w.depth == (if ContinuedEntry(m) then None else Some(n.hops))
            && (exists k | 0 <= k < |moves| :: moves[k].0 == m)
            && nodes[n.root].hops == 0 && (w.depth.Some? ==> 0 <= w.depth.value <= MAX_U32)
  {
    RunSound(moves);
    RunTraced(moves);
    hide Run, Less, Below, ValidId, ValidOperation, ValidAttribution, WorkIdTraced, Served, AskedAttribution,
         AskedOrigin;
    var j := Run(moves);
    assert NodeOk(j.nodes, i) && NodeTraced(moves, j, j.nodes[i].root);
    RootServed(j.nodes, j.works, j.nodes[i].root);
  }

  /** A retry keeps the work and takes the next attempt number under a new, larger scope id. */
  lemma RetriesAreConsecutive(moves: seq<(Move, Tick)>, i: nat)
    requires i < |Run(moves).nodes|
    ensures var nodes := Run(moves).nodes;
            var n := nodes[i];
            if n.prior.None? then n.scope.previousAttempt.None?
            else
              && n.prior.value < i
              && var before := nodes[n.prior.value].scope;
              && n.scope.previousAttempt == Some(before.scopeId) && n.scope.work == before.work
              && n.scope.attempt == before.attempt + 1 && Less(before.scopeId, n.scope.scopeId)
  {
    RunSound(moves);
    hide Run, Less, Below, ValidScope, Kin;
    assert NodeOk(Run(moves).nodes, i);
  }

  // x's scope names y's scope as its defaulted cause or as the attempt before it.
  ghost predicate Points(nodes: seq<Node>, x: ID, y: ID) {
    exists i | 0 <= i < |nodes| ::
      && nodes[i].scope.scopeId == x
      && (nodes[i].scope.previousAttempt == Some(y)
          || (nodes[i].parent.Some? && nodes[i].scope.work.causation == Some(Reference(ScopeRef, y))))
  }

  /** Every such edge goes to a strictly smaller id text ... */
  lemma EdgesDescend(moves: seq<(Move, Tick)>, x: ID, y: ID)
    requires Points(Run(moves).nodes, x, y)
    ensures Less(y, x)
  {
    RunSound(moves);
    hide Run, Less, Below, ValidScope, Kin;
    var nodes := Run(moves).nodes;
    var i :| 0 <= i < |nodes| && nodes[i].scope.scopeId == x
             && (nodes[i].scope.previousAttempt == Some(y)
                 || (nodes[i].parent.Some? && nodes[i].scope.work.causation == Some(Reference(ScopeRef, y))));
    assert NodeOk(nodes, i);
  }

  /** ... so no walk over them, of any length, comes back to where it started. */
  lemma {:induction false} LineageIsAcyclic(moves: seq<(Move, Tick)>, walk: seq<ID>)
    requires |walk| > 1
    requires forall k | 0 <= k < |walk| - 1 :: Points(Run(moves).nodes, walk[k], walk[k + 1])
    ensures Less(walk[|walk| - 1], walk[0]) && walk[|walk| - 1] != walk[0]
    decreases |walk|
  {
    hide Run, Less, Points;
    EdgesDescend(moves, walk[0], walk[1]);
    if |walk| > 2 {
      var rest := walk[1..];
      forall k | 0 <= k < |rest| - 1
        ensures Points(Run(moves).nodes, rest[k], rest[k + 1])
      {
        assert Points(Run(moves).nodes, walk[k + 1], walk[k + 2]);
      }
      LineageIsAcyclic(moves, rest);
      LessTransitive(walk[|walk| - 1], walk[1], walk[0]);
    }
    LessIrreflexive(walk[0]);
  }

  // A defaulted child and the id minted for it.
  lemma ChildCollides(g: Generator, parent: Scope, step: StepSpec, t: Tick)
    requires g.Valid() && ValidScope(parent) && step.cause.None? && step.workId.None? && ChildPlan(parent, step).Ok?
    requires EmitPrecheck(ChildPlan(parent, step).value.draft, step.executor, 1, t.clock).None?
    requires Mint(g, t.idClock, t.entropy).1.Ok? && Mint(g, t.idClock, t.entropy).1.value != parent.scopeId
    ensures var id := Mint(g, t.idClock, t.entropy).1.value;
            Perform(g, ChildPlan(parent, step), t).1.Ok? <==>
            && id != parent.work.workId
            && (parent.work.replay.Some? ==> parent.work.replay.value.source != Reference(WorkRef, id))
  {
    hide Emit, Mint, ValidScope, EmitPrecheck, ChildPlan, Collisions;
    ChildDraft(parent, step);
    EmitsWhen(g, ChildPlan(parent, step).value, t);
  }

  lemma NextIdIsNew(j: Journal, t: Tick)
    requires Sound(j) && Mint(j.ids, t.idClock, t.entropy).1.Ok?
    ensures forall i | 0 <= i < |j.nodes| :: j.nodes[i].scope.scopeId != Mint(j.ids, t.idClock, t.entropy).1.value
  {
    hide Mint, Less, ValidScope, NodeOk, PreparedOk;
    LessIrreflexive(Mint(j.ids, t.idClock, t.entropy).1.value);
    forall i | 0 <= i < |j.nodes| ensures Less(j.nodes[i].scope.scopeId, Mint(j.ids, t.idClock, t.entropy).1.value) {
      assert Below(j.nodes[i].scope.scopeId, j.ids);
    }
  }

  // The ids that a defaulted child of a scope must not be.
  predicate Clashes(parent: Scope, id: ID) {
    id == parent.work.workId
    || (parent.work.replay.Some? && parent.work.replay.value.source == Reference(WorkRef, id))
  }

  // Some caller of the run gave this id, as a work id or as the work that a replay repeats.
  predicate CallersOwn(moves: seq<(Move, Tick)>, id: ID) {
    exists k | 0 <= k < |moves| ::
      Supplied(moves[k].0) == Some(id) || (moves[k].0.Replay? && moves[k].0.again.source == Reference(WorkRef, id))
  }

  lemma ClashesAreCallers(moves: seq<(Move, Tick)>, at: nat, id: ID)
    requires at < |Run(moves).nodes| && Clashes(Run(moves).nodes[at].scope, id)
    requires forall i | 0 <= i < |Run(moves).nodes| :: Run(moves).nodes[i].scope.scopeId != id
    ensures CallersOwn(moves, id)
  {
    RunSound(moves);
    RunTraced(moves);
    hide Run, Less, Below, ValidScope, ValidWork, Served;
    var nodes := Run(moves).nodes;
    var root := nodes[at].root;
    assert NodeOk(nodes, at) && NodeTraced(moves, Run(moves), at) && NodeTraced(moves, Run(moves), root);
    RootServed(nodes, Run(moves).works, root);
    if id == nodes[at].scope.work.workId {
      var k :| 0 <= k < |moves| && Supplied(moves[k].0) == Some(id);
    } else {
      var k :| 0 <= k < |moves| && moves[k].0 == nodes[root].move;
    }
  }

  /** With one generator behind every scope id, a child whose cause and work id are defaulted is refused
      exactly when its new id clashes with a work id of its chain, and such an id is one that a caller
      of the run supplied: it never collides with a scope of its own run. */
  lemma OwnScopesNeverCollide(moves: seq<(Move, Tick)>, at: nat, step: StepSpec, t: Tick)
    requires at < |Run(moves).nodes| && step.cause.None? && step.workId.None?
    requires ChildPlan(Run(moves).nodes[at].scope, step).Ok? && Mint(Run(moves).ids, t.idClock, t.entropy).1.Ok?
    requires EmitPrecheck(ChildPlan(Run(moves).nodes[at].scope, step).value.draft, step.executor, 1, t.clock).None?
    ensures var j := Run(moves);
            var id := Mint(j.ids, t.idClock, t.entropy).1.value;
            && (Perform(j.ids, ChildPlan(j.nodes[at].scope, step), t).1.Ok? <==> !Clashes(j.nodes[at].scope, id))
            && (Clashes(j.nodes[at].scope, id) ==> CallersOwn(moves, id))
            && forall i | 0 <= i < |j.nodes| :: j.nodes[i].scope.scopeId != id
  {
    hide Run, Mint, ValidScope, ChildPlan, EmitPrecheck, Perform, CallersOwn, Sound;
    var j := Run(moves);
    var id := Mint(j.ids, t.idClock, t.entropy).1.value;
    RunSound(moves);
    NextIdIsNew(j, t);
    ChildCollides(j.ids, j.nodes[at].scope, step, t);
    if Clashes(j.nodes[at].scope, id) { ClashesAreCallers(moves, at, id); }
  }

  lemma ChildDraft(parent: Scope, step: StepSpec)
    requires ValidScope(parent) && ChildPlan(parent, step).Ok? && step.cause.None? && step.workId.None?
    ensures var e := ChildPlan(parent, step).value;
            && e.executor == step.executor && e.attempt == 1 && e.previous.None?
            && Collisions(e.draft, None, e.forbidden)
               == {parent.scopeId, parent.work.workId}
                  + if parent.work.replay.Some? && parent.work.replay.value.source.kind.WorkRef?
                    then {parent.work.replay.value.source.id} else {}
  {
    hide ValidId, ValidateWork, ValidScope;
  }
}
