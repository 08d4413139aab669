/** A run of one node over two rounds in which 2f + 1 nodes prepare the hash that the
    first of them has proposed, up to the block that holds the quorum. */
module SideRuns {
  import opened Messages
  import opened Protocol
  import opened Delivery
  import opened Interpreter
  import opened History
  import opened Agreement
  import opened CalmRuns
  import opened Sets

  /** Some run over the DAG has a state that backs `h` for the undelivered slot. */
  ghost predicate Reached(cfg: Config, dag: Dag, slot: Slot, h: Hash)
    requires cfg.nodes != []
  {
    exists last: nat, past: set<BlockID>, steps: seq<Step>, tr: Trace, b: BlockID ::
      Run(cfg, dag, last, past, steps, tr) && tr.graph.round <= slot.round && b in tr.log && Backs(cfg, tr.log[b], slot, h)
  }

  lemma ReachedBy(cfg: Config, dag: Dag, slot: Slot, h: Hash, last: nat, past: set<BlockID>, steps: seq<Step>, tr: Trace, b: BlockID)
    requires cfg.nodes != [] && Run(cfg, dag, last, past, steps, tr) && tr.graph.round <= slot.round && b in tr.log && Backs(cfg, tr.log[b], slot, h)
    ensures Reached(cfg, dag, slot, h)
  {
    hide Run, Backs;
  }

  // ---------------------------------------------------------------------------
  // A side of a split: the first of 2f + 1 nodes proposes `h` in round 1, all of them
  // answer that in round 1, and in round 2 the last of them collects the answers.

  function Lower(h: Hash, p: nat): BlockID { BlockID(h, p, 1) }

  function Last(side: seq<nat>): nat
    requires side != []
  {
    side[|side| - 1]
  }

  function Collecting(side: seq<nat>, h: Hash): BlockID
    requires side != []
  {
    BlockID(h, Last(side), 2)
  }

  /** The blocks of those between the first and the last. */
  function Between(side: seq<nat>, h: Hash): seq<BlockID>
    requires |side| >= 2
  {
    seq(|side| - 2, i requires 0 <= i < |side| - 2 => Lower(h, side[i + 1]))
  }

  function LinksFor(side: seq<nat>, b: BlockID): Links
    requires |side| >= 2
  {
    if b.round != 1 then Links(Lower(b.hash, b.node), Between(side, b.hash))
    else Links(NO_BLOCK, if b.node == side[0] then [] else [Lower(b.hash, side[0])])
  }

  function SideBlocks(side: seq<nat>, h: Hash): set<BlockID>
    requires side != []
  {
    (set p | p in side :: Lower(h, p)) + {Collecting(side, h)}
  }

  ghost predicate IsSide(cfg: Config, dag: Dag, side: seq<nat>, h: Hash) {
    && cfg.nodes != [] && |side| == cfg.Quorum() >= 3 && Distinct(side) && h != []
    && forall b | b in SideBlocks(side, h) :: b in dag.links && dag.links[b] == LinksFor(side, b)
  }

  // ---------------------------------------------------------------------------
  // A run over one side.

  lemma RunOn(cfg: Config, dag: Dag, steps: seq<Step>, tr: Trace, step: Step)
    requires cfg.nodes != [] && Run(cfg, dag, 0, {}, steps, tr) && CellsOk(tr.graph) && MayStep(cfg, dag, tr, step)
    ensures Run(cfg, dag, 0, {}, steps + [step], TakeStep(cfg, tr, step))
  {
    assert (steps + [step])[..|steps|] == steps;
  }

  function SceneOf(cfg: Config, side: seq<nat>, h: Hash, p: nat): Scene
    requires cfg.nodes != [] && side != []
  {
    Scene(cfg.Quorum(), Slot(side[0], 1), h, {side[0], p}, p)
  }

  /** What the round-1 block of `p` has said and heard. */
  ghost predicate Spoke(cfg: Config, side: seq<nat>, h: Hash, p: nat, s: State)
    requires cfg.nodes != [] && side != []
  {
    var sc := SceneOf(cfg, side, h, p);
    && CalmState(sc, s) && AllCalm(sc, s.out) && sc.PrepareBy(p) in s.out
    && (p == side[0] ==> sc.Proposal() in s.out)
    && (p != side[0] ==> side[0] in Prepared(sc, s))
  }

  /** The round-1 blocks of `done` were interpreted, and nothing was delivered. */
  ghost predicate Lit(cfg: Config, side: seq<nat>, h: Hash, tr: Trace, done: set<nat>)
    requires cfg.nodes != [] && side != []
  {
    && tr.graph.status.Running? && tr.graph.round == 1 && tr.graph.statess == tr.log && CellsOk(tr.graph)
    && (forall b :: b in tr.log <==> exists p :: p in done && b == Lower(h, p))
    && (forall p | p in done :: Spoke(cfg, side, h, p, tr.log[Lower(h, p)]))
  }

  /** What is calm among few is calm among more. */
  lemma CalmAmongMore(sc: Scene, sc': Scene, out: seq<Message>)
    requires AllCalm(sc, out) && sc.peers <= sc'.peers && |sc.peers| < sc.quorum
    requires sc'.slot == sc.slot && sc'.hash == sc.hash
    ensures AllCalm(sc', out)
  {
  }

  lemma FewPeers(a: nat, b: nat)
    ensures |{a, b}| <= 2
  {
    assert {a, b} == {a} + {b};
  }

  lemma SideLinks(cfg: Config, dag: Dag, side: seq<nat>, h: Hash, p: nat)
    requires IsSide(cfg, dag, side, h) && p in side
    ensures var b := Lower(h, p); b in dag.links && dag.links[b] == LinksFor(side, b)
  {
    assert Lower(h, p) in SideBlocks(side, h);
  }

  lemma Entries(cfg: Config, dag: Dag, side: seq<nat>, h: Hash, tr: Trace, done: set<nat>, p: nat)
    requires IsSide(cfg, dag, side, h) && Lit(cfg, side, h, tr, done) && p in side && p !in done && (p == side[0] || side[0] in done)
    requires Lower(h, p) in tr.admitted
    ensures Lower(h, p) in dag.links
    ensures MayStep(cfg, dag, tr, Interpretation(Entry(Lower(h, p), NO_BLOCK, dag.links[Lower(h, p)].refs), []))
  {
    SideLinks(cfg, dag, side, h, p);
    assert Lower(h, p) in tr.log ==> p in done;
    assert p != side[0] ==> Lower(h, side[0]) in tr.log;
  }

  lemma FreshCalm(sc: Scene)
    ensures CalmState(sc, FRESH) && !Proposed(sc, FRESH)
  {
  }

  /** One more round-1 block. */
  lemma LightBlock(cfg: Config, dag: Dag, side: seq<nat>, h: Hash, tr: Trace, done: set<nat>, p: nat)
    requires IsSide(cfg, dag, side, h) && Lit(cfg, side, h, tr, done) && p in side && p !in done && (p == side[0] || side[0] in done)
    ensures Lower(h, p) in dag.links
    ensures var e := Entry(Lower(h, p), NO_BLOCK, dag.links[Lower(h, p)].refs);
            var q := Evaluate(cfg, tr.graph, e, []);
            q.graph == tr.graph && q.work.cells == tr.graph.cells && Spoke(cfg, side, h, p, q.work.state.(out := q.out))
  {
    var sc := SceneOf(cfg, side, h, p);
    SideLinks(cfg, dag, side, h, p);
    var e := Entry(Lower(h, p), NO_BLOCK, dag.links[Lower(h, p)].refs);
    FewPeers(side[0], side[0]);
    if p != side[0] {
      assert Lower(h, side[0]) in tr.log && Spoke(cfg, side, h, side[0], tr.log[Lower(h, side[0])]);
      CalmAmongMore(SceneOf(cfg, side, h, side[0]), sc, tr.log[Lower(h, side[0])].out);
    }
    FreshCalm(sc);
    assert CalmDeps(sc, tr.graph, e.deps);
    hide CalmState, AllCalm, CalmDeps;
    BlockCalm(cfg, sc, {}, tr.graph, e, []);
    var q := Evaluate(cfg, tr.graph, e, []);
    hide Evaluate, Lit, IsSide;
    if p != side[0] {
      var out := Output(tr.graph, Lower(h, side[0]));
      assert Lower(h, side[0]) in e.deps && sc.Proposal() in out && sc.PrepareBy(side[0]) in out;
    }
    assert [] + q.out == q.out;
    CalmOut(sc, q.work.state, q.out);
  }

  lemma CalmOut(sc: Scene, s: State, out: seq<Message>)
    requires CalmState(sc, s)
    ensures CalmState(sc, s.(out := out)) && Prepared(sc, s.(out := out)) == Prepared(sc, s)
  {
    forall x ensures s.(out := out).View(x) == 0 { assert s.View(x) == 0; }
    forall c ensures CalmVotes(sc, s.(out := out).VotesFor(c)) { assert CalmVotes(sc, s.VotesFor(c)); }
  }

  lemma LitStep(cfg: Config, side: seq<nat>, h: Hash, tr: Trace, done: set<nat>, p: nat, e: Entry)
    requires cfg.nodes != [] && side != [] && Lit(cfg, side, h, tr, done) && e.block == Lower(h, p)
    requires var q := Evaluate(cfg, tr.graph, e, []); q.graph == tr.graph && Spoke(cfg, side, h, p, q.work.state.(out := q.out))
    ensures var tr' := TakeStep(cfg, tr, Interpretation(e, [])); tr'.admitted == tr.admitted && Lit(cfg, side, h, tr', done + {p})
  {
    hide Evaluate, Spoke, CellsOk;
    ProcessKeeps(cfg, tr.graph, e, []);
    var tr' := TakeStep(cfg, tr, Interpretation(e, []));
    forall b ensures b in tr'.log <==> exists x :: x in done + {p} && b == Lower(h, x) {
      if b == Lower(h, p) { assert p in done + {p}; }
      if x :| x in done && b == Lower(h, x) { assert x in done + {p}; }
    }
  }

  lemma Light(cfg: Config, dag: Dag, side: seq<nat>, h: Hash, steps: seq<Step>, tr: Trace, done: set<nat>, p: nat) returns (step: Step)
    requires IsSide(cfg, dag, side, h) && Lit(cfg, side, h, tr, done) && p in side && p !in done && (p == side[0] || side[0] in done)
    requires Run(cfg, dag, 0, {}, steps, tr) && Lower(h, p) in tr.admitted
    ensures CellsOk(tr.graph)
    ensures var tr' := TakeStep(cfg, tr, step);
            Run(cfg, dag, 0, {}, steps + [step], tr') && tr'.admitted == tr.admitted && Lit(cfg, side, h, tr', done + {p})
  {
    assert CellsOk(tr.graph);
    hide Evaluate, Spoke, MayStep, Run, Lit, CellsOk, TakeStep;
    Entries(cfg, dag, side, h, tr, done, p);
    LightBlock(cfg, dag, side, h, tr, done, p);
    var e := Entry(Lower(h, p), NO_BLOCK, dag.links[Lower(h, p)].refs);
    step := Interpretation(e, []);
    RunOn(cfg, dag, steps, tr, step);
    LitStep(cfg, side, h, tr, done, p, e);
  }

  function DoneUpTo(side: seq<nat>, k: nat): set<nat>
    requires side != [] && k <= |side|
  {
    {Last(side)} + Elements(side[..k])
  }

  lemma OneMoreDone(side: seq<nat>, k: nat)
    requires Distinct(side) && 2 <= k < |side|
    ensures side[k - 1] !in DoneUpTo(side, k - 1) && side[0] in DoneUpTo(side, k - 1)
    ensures DoneUpTo(side, k - 1) + {side[k - 1]} == DoneUpTo(side, k)
  {
    assert side[..k - 1][0] == side[0];
    assert side[..k] == side[..k - 1] + [side[k - 1]];
  }

  lemma {:induction false} LightUpTo(cfg: Config, dag: Dag, side: seq<nat>, h: Hash, steps: seq<Step>, tr: Trace, k: nat)
    returns (steps': seq<Step>, tr': Trace)
    requires IsSide(cfg, dag, side, h) && 1 <= k < |side| && Lit(cfg, side, h, tr, DoneUpTo(side, 1)) && Run(cfg, dag, 0, {}, steps, tr)
    requires forall p | p in side :: Lower(h, p) in tr.admitted
    ensures Run(cfg, dag, 0, {}, steps', tr') && tr'.admitted == tr.admitted && Lit(cfg, side, h, tr', DoneUpTo(side, k))
    decreases k
  {
    hide Run, Lit, TakeStep, CellsOk, DoneUpTo;
    if k == 1 {
      steps', tr' := steps, tr;
    } else {
      OneMoreDone(side, k);
      hide IsSide;
      steps', tr' := LightUpTo(cfg, dag, side, h, steps, tr, k - 1);
      var step := Light(cfg, dag, side, h, steps', tr', DoneUpTo(side, k - 1), side[k - 1]);
      steps', tr' := steps' + [step], TakeStep(cfg, tr', step);
    }
  }

  // ---------------------------------------------------------------------------
  // What is admitted: the last node's own blocks, each with what it newly refers to.

  function FirstData(side: seq<nat>, h: Hash): BlockGraph
    requires |side| >= 2
  {
    BlockGraph(Lower(h, Last(side)), [Dep(Lower(h, side[0]), [], NO_BLOCK)], NO_BLOCK)
  }

  function SecondData(side: seq<nat>, h: Hash): BlockGraph
    requires |side| >= 2
  {
    BlockGraph(Collecting(side, h),
               seq(|side| - 2, i requires 0 <= i < |side| - 2 => Dep(Lower(h, side[i + 1]), [Lower(h, side[0])], NO_BLOCK)),
               Lower(h, Last(side)))
  }

  lemma AdmitLit(cfg: Config, side: seq<nat>, h: Hash, tr: Trace, done: set<nat>, data: BlockGraph)
    requires cfg.nodes != [] && side != [] && Lit(cfg, side, h, tr, done)
    ensures var tr' := TakeStep(cfg, tr, Admission(data));
            Lit(cfg, side, h, tr', done) && tr'.admitted == tr.admitted + Blocks(data.deps) + {data.block}
  {
    hide Spoke;
  }

  lemma MayAdmitFirst(cfg: Config, dag: Dag, side: seq<nat>, h: Hash, tr: Trace)
    requires IsSide(cfg, dag, side, h) && tr.admitted == {}
    ensures MayAdmit(dag, tr, FirstData(side, h))
  {
    var data := FirstData(side, h);
    SideLinks(cfg, dag, side, h, side[0]);
    SideLinks(cfg, dag, side, h, Last(side));
    assert dag.links[data.block].refs == seq(|data.deps|, i requires 0 <= i < |data.deps| => data.deps[i].block);
    assert data.deps[..0] == [] && Blocks([]) == {};
    assert MayAdmitDep(dag, {}, data.deps[0]);
    assert MayAdmitDeps(dag, {}, data.deps[..0]);
  }

  lemma NotYet(side: seq<nat>, h: Hash, k: nat)
    requires Distinct(side) && 1 <= k <= |side| - 2
    ensures var deps := SecondData(side, h).deps;
            deps[k - 1].block !in {Lower(h, side[0]), Lower(h, Last(side))} + Blocks(deps[..k - 1])
  {
    var deps := SecondData(side, h).deps;
    forall d | d in deps[..k - 1] ensures d.block != deps[k - 1].block {
      var i :| 0 <= i < k - 1 && deps[..k - 1][i] == d;
      assert d.block.node == side[i + 1];
    }
  }

  lemma {:induction false} MayAdmitSome(cfg: Config, dag: Dag, side: seq<nat>, h: Hash, admitted: set<BlockID>, k: nat)
    requires IsSide(cfg, dag, side, h) && k <= |side| - 2 && admitted == {Lower(h, side[0]), Lower(h, Last(side))}
    ensures MayAdmitDeps(dag, admitted, SecondData(side, h).deps[..k])
  {
    if k > 0 {
      var deps := SecondData(side, h).deps;
      assert deps[..k][..k - 1] == deps[..k - 1] && deps[..k][k - 1] == deps[k - 1] == Dep(Lower(h, side[k]), [Lower(h, side[0])], NO_BLOCK);
      NotYet(side, h, k);
      SideLinks(cfg, dag, side, h, side[k]);
      assert LinksFor(side, Lower(h, side[k])) == Links(NO_BLOCK, [Lower(h, side[0])]);
      hide SecondData, LinksFor, Blocks;
      assert MayAdmitDep(dag, admitted + Blocks(deps[..k - 1]), deps[k - 1]);
      hide MayAdmitDep;
      MayAdmitSome(cfg, dag, side, h, admitted, k - 1);
      hide IsSide;
    }
  }

  lemma MayAdmitSecond(cfg: Config, dag: Dag, side: seq<nat>, h: Hash, tr: Trace)
    requires IsSide(cfg, dag, side, h) && tr.admitted == {Lower(h, side[0]), Lower(h, Last(side))}
    ensures MayAdmit(dag, tr, SecondData(side, h))
  {
    var data := SecondData(side, h);
    assert Collecting(side, h) in SideBlocks(side, h);
    assert dag.links[data.block].refs == seq(|data.deps|, i requires 0 <= i < |data.deps| => data.deps[i].block);
    MayAdmitSome(cfg, dag, side, h, tr.admitted, |side| - 2);
    assert data.deps[..|side| - 2] == data.deps;
  }

  // ---------------------------------------------------------------------------
  // The last node's two rounds.

  lemma StartLit(cfg: Config, dag: Dag, side: seq<nat>, h: Hash)
    requires cfg.nodes != [] && side != []
    ensures Lit(cfg, side, h, Start(0, {}), {}) && Run(cfg, dag, 0, {}, [], Start(0, {})) && Start(0, {}).admitted == {}
  {
  }

  /** Admits a block. */
  lemma Admits(cfg: Config, dag: Dag, side: seq<nat>, h: Hash, steps: seq<Step>, tr: Trace, done: set<nat>, data: BlockGraph)
    requires cfg.nodes != [] && side != [] && Lit(cfg, side, h, tr, done) && Run(cfg, dag, 0, {}, steps, tr) && MayAdmit(dag, tr, data)
    ensures CellsOk(tr.graph)
    ensures var tr' := TakeStep(cfg, tr, Admission(data));
            && Lit(cfg, side, h, tr', done) && tr'.admitted == tr.admitted + Blocks(data.deps) + {data.block}
            && Run(cfg, dag, 0, {}, steps + [Admission(data)], tr')
  {
    AdmitLit(cfg, side, h, tr, done, data);
    hide MayAdmit, Run, TakeStep;
    assert MayStep(cfg, dag, tr, Admission(data));
    RunOn(cfg, dag, steps, tr, Admission(data));
  }

  lemma FirstAdmitted(cfg: Config, dag: Dag, side: seq<nat>, h: Hash) returns (steps: seq<Step>, tr: Trace)
    requires IsSide(cfg, dag, side, h)
    ensures Run(cfg, dag, 0, {}, steps, tr) && Lit(cfg, side, h, tr, {}) && tr.admitted == {Lower(h, side[0]), Lower(h, Last(side))}
  {
    var data := FirstData(side, h);
    assert {} + Blocks(data.deps) + {data.block} == {Lower(h, side[0]), Lower(h, Last(side))};
    hide Run, Lit, MayAdmit, TakeStep, IsSide, Start, Blocks, CellsOk, FirstData;
    StartLit(cfg, dag, side, h);
    MayAdmitFirst(cfg, dag, side, h, Start(0, {}));
    Admits(cfg, dag, side, h, [], Start(0, {}), {}, data);
    steps, tr := [] + [Admission(data)], TakeStep(cfg, Start(0, {}), Admission(data));
  }

  lemma TwoEnds(side: seq<nat>)
    requires |side| >= 2 && Distinct(side)
    ensures side[0] in side && Last(side) in side && Last(side) !in {side[0]}
    ensures {} + {side[0]} == {side[0]} && {side[0]} + {Last(side)} == {side[0], Last(side)}
  {
  }

  lemma FirstRound(cfg: Config, dag: Dag, side: seq<nat>, h: Hash) returns (steps: seq<Step>, tr: Trace)
    requires IsSide(cfg, dag, side, h)
    ensures Run(cfg, dag, 0, {}, steps, tr) && Lit(cfg, side, h, tr, {side[0], Last(side)})
    ensures tr.admitted == {Lower(h, side[0]), Lower(h, Last(side))}
  {
    TwoEnds(side);
    hide Run, Lit, TakeStep, IsSide, CellsOk, Last;
    steps, tr := FirstAdmitted(cfg, dag, side, h);
    var step := Light(cfg, dag, side, h, steps, tr, {}, side[0]);
    steps, tr := steps + [step], TakeStep(cfg, tr, step);
    step := Light(cfg, dag, side, h, steps, tr, {side[0]}, Last(side));
    steps, tr := steps + [step], TakeStep(cfg, tr, step);
  }

  lemma AllAdmitted(side: seq<nat>, h: Hash, admitted: set<BlockID>)
    requires |side| >= 2 && admitted == {Lower(h, side[0]), Lower(h, Last(side))} + Blocks(SecondData(side, h).deps) + {SecondData(side, h).block}
    ensures Collecting(side, h) in admitted && forall p | p in side :: Lower(h, p) in admitted
  {
    forall p | p in side ensures Lower(h, p) in admitted {
      var i :| 0 <= i < |side| && side[i] == p;
      if 1 <= i < |side| - 1 {
        var deps := SecondData(side, h).deps;
        assert deps[i - 1] in deps && deps[i - 1].block == Lower(h, p);
      }
    }
  }

  lemma AllDone(side: seq<nat>)
    requires |side| >= 2
    ensures DoneUpTo(side, 1) == {side[0], Last(side)} && DoneUpTo(side, |side| - 1) == Elements(side)
  {
    assert side == side[..|side| - 1] + [Last(side)];
    assert side[..1] == [side[0]];
  }

  lemma SecondAdmitted(cfg: Config, dag: Dag, side: seq<nat>, h: Hash) returns (steps: seq<Step>, tr: Trace)
    requires IsSide(cfg, dag, side, h)
    ensures Run(cfg, dag, 0, {}, steps, tr) && Lit(cfg, side, h, tr, {side[0], Last(side)})
    ensures Collecting(side, h) in tr.admitted && forall p | p in side :: Lower(h, p) in tr.admitted
  {
    var data := SecondData(side, h);
    hide Run, Lit, MayAdmit, TakeStep, IsSide, SecondData, Blocks, CellsOk, Lower, Last, Collecting;
    steps, tr := FirstRound(cfg, dag, side, h);
    MayAdmitSecond(cfg, dag, side, h, tr);
    Admits(cfg, dag, side, h, steps, tr, {side[0], Last(side)}, data);
    steps, tr := steps + [Admission(data)], TakeStep(cfg, tr, Admission(data));
    AllAdmitted(side, h, tr.admitted);
  }

  lemma SideSize(cfg: Config, dag: Dag, side: seq<nat>, h: Hash)
    requires IsSide(cfg, dag, side, h)
    ensures |side| >= 3
  {
  }

  lemma BeforeCollecting(cfg: Config, dag: Dag, side: seq<nat>, h: Hash) returns (steps: seq<Step>, tr: Trace)
    requires IsSide(cfg, dag, side, h)
    ensures Run(cfg, dag, 0, {}, steps, tr) && Lit(cfg, side, h, tr, Elements(side)) && Collecting(side, h) in tr.admitted
  {
    hide *;
    SideSize(cfg, dag, side, h);
    AllDone(side);
    steps, tr := SecondAdmitted(cfg, dag, side, h);
    steps, tr := LightUpTo(cfg, dag, side, h, steps, tr, |side| - 1);
  }

  lemma CloneCalm(sc: Scene, sc': Scene, s: State)
    requires CalmState(sc, s) && sc.peers <= sc'.peers && sc'.node == sc.node && sc'.slot == sc.slot && sc'.hash == sc.hash && sc.slot.round == 1
    ensures CalmState(sc', s.Clone(1)) && Prepared(sc', s.Clone(1)) == Prepared(sc, s)
  {
    forall x ensures s.Clone(1).View(x) == 0 { assert s.View(x) == 0; }
    forall c ensures CalmVotes(sc', s.Clone(1).VotesFor(c)) { assert CalmVotes(sc, s.VotesFor(c)); }
  }

  lemma CollectedFrom(cfg: Config, side: seq<nat>, h: Hash, tr: Trace, sc: Scene, p: nat)
    requires cfg.nodes != [] && cfg.Quorum() >= 3 && side != [] && Lit(cfg, side, h, tr, Elements(side)) && p in side
    requires sc == SceneOf(cfg, side, h, Last(side)).(peers := Elements(side))
    ensures Lower(h, p) in tr.graph.statess && AllCalm(sc, tr.log[Lower(h, p)].out) && sc.PrepareBy(p) in tr.log[Lower(h, p)].out
  {
    assert Spoke(cfg, side, h, p, tr.log[Lower(h, p)]);
    FewPeers(side[0], p);
    assert side[0] in Elements(side);
    CalmAmongMore(SceneOf(cfg, side, h, p), sc, tr.log[Lower(h, p)].out);
  }

  function CollectingEntry(side: seq<nat>, h: Hash): Entry
    requires |side| >= 2
  {
    Entry(Collecting(side, h), Lower(h, Last(side)), [Lower(h, Last(side))] + Between(side, h))
  }

  function Collector(cfg: Config, side: seq<nat>, h: Hash): Scene
    requires cfg.nodes != [] && side != []
  {
    SceneOf(cfg, side, h, Last(side)).(peers := Elements(side))
  }

  lemma CollectingDeps(cfg: Config, side: seq<nat>, h: Hash, tr: Trace)
    requires cfg.nodes != [] && cfg.Quorum() >= 3 && |side| >= 2 && Lit(cfg, side, h, tr, Elements(side))
    ensures CalmDeps(Collector(cfg, side, h), tr.graph, CollectingEntry(side, h).deps)
    ensures forall d | d in CollectingEntry(side, h).deps :: Prepare(h, Slot(side[0], 1), d.node, 0) in Output(tr.graph, d)
  {
    var sc, e := Collector(cfg, side, h), CollectingEntry(side, h);
    forall d | d in e.deps ensures d.node in sc.peers && d in tr.graph.statess && AllCalm(sc, tr.graph.statess[d].out) && sc.PrepareBy(d.node) in Output(tr.graph, d) {
      assert d.node in side && d == Lower(h, d.node);
      CollectedFrom(cfg, side, h, tr, sc, d.node);
    }
  }

  lemma CollectingStart(cfg: Config, side: seq<nat>, h: Hash, tr: Trace)
    requires cfg.nodes != [] && |side| >= 2 && Distinct(side) && h != [] && Lit(cfg, side, h, tr, Elements(side))
    ensures Lower(h, Last(side)) in tr.log
    ensures var sc, s := Collector(cfg, side, h), StartState(tr.graph, Lower(h, Last(side)));
            CalmState(sc, s) && side[0] in Prepared(sc, s) && sc.PrepareBy(sc.node) in tr.log[Lower(h, Last(side))].out
  {
    var a, s := Last(side), tr.log[Lower(h, Last(side))];
    assert a in Elements(side) && side[0] in Elements(side) && a != side[0];
    assert Spoke(cfg, side, h, a, s);
    CloneCalm(SceneOf(cfg, side, h, a), Collector(cfg, side, h), s);
  }

  lemma SideDep(side: seq<nat>, h: Hash, p: nat)
    requires |side| >= 2 && p in side && p != side[0]
    ensures Lower(h, p) in CollectingEntry(side, h).deps
  {
    var i :| 0 <= i < |side| && side[i] == p;
    if i < |side| - 1 { assert Between(side, h)[i - 1] == Lower(h, p); }
  }

  /** The collecting block counts a prepare of every node of its side. */
  lemma Collects(cfg: Config, dag: Dag, side: seq<nat>, h: Hash, tr: Trace)
    requires IsSide(cfg, dag, side, h) && Lit(cfg, side, h, tr, Elements(side))
    ensures var q := Evaluate(cfg, tr.graph, CollectingEntry(side, h), []);
            q.graph == tr.graph && Elements(side) <= q.work.state.VotesFor(Ballot(h, Slot(side[0], 1), 0)).prepares
  {
    var e, sc := CollectingEntry(side, h), Collector(cfg, side, h);
    CollectingDeps(cfg, side, h, tr);
    CollectingStart(cfg, side, h, tr);
    assert sc.Valid() && CellsOk(tr.graph) && tr.graph.status.Running?;
    hide CalmState, CalmDeps, Lit, IsSide, StartState, CellsOk, AllCalm;
    BlockCalm(cfg, sc, {side[0]}, tr.graph, e, tr.log[Lower(h, Last(side))].out);
    var q := Evaluate(cfg, tr.graph, e, []);
    hide Evaluate, CollectingEntry, Output;
    forall p | p in Elements(side) ensures p in Prepared(sc, q.work.state) {
      if p != side[0] {
        SideDep(side, h, p);
        assert sc.PrepareBy(p) in q.work.processed;
      }
    }
  }

  lemma CollectingLinks(cfg: Config, dag: Dag, side: seq<nat>, h: Hash)
    requires IsSide(cfg, dag, side, h)
    ensures cfg.nodes != [] && |side| >= 3 && h != [] && Collecting(side, h) in dag.links
    ensures dag.links[Collecting(side, h)] == Links(Lower(h, Last(side)), Between(side, h))
  {
    assert Collecting(side, h) in SideBlocks(side, h);
  }

  lemma CollectingLogged(cfg: Config, side: seq<nat>, h: Hash, tr: Trace, l: BlockID)
    requires cfg.nodes != [] && |side| >= 2 && Lit(cfg, side, h, tr, Elements(side)) && (l == Lower(h, Last(side)) || l in Between(side, h))
    ensures l in tr.log
  {
    hide Spoke, CellsOk;
    assert l.node in side && l == Lower(h, l.node);
    assert l.node in Elements(side);
  }

  lemma NotLit(cfg: Config, side: seq<nat>, h: Hash, tr: Trace)
    requires cfg.nodes != [] && side != [] && Lit(cfg, side, h, tr, Elements(side))
    ensures Collecting(side, h) !in tr.log && tr.graph.status.Running?
  {
    hide Spoke, CellsOk;
  }

  lemma MayCollect(cfg: Config, dag: Dag, side: seq<nat>, h: Hash, tr: Trace)
    requires IsSide(cfg, dag, side, h) && Lit(cfg, side, h, tr, Elements(side)) && Collecting(side, h) in tr.admitted
    ensures MayStep(cfg, dag, tr, Interpretation(CollectingEntry(side, h), []))
  {
    hide IsSide, Lit, Between, Elements;
    CollectingLinks(cfg, dag, side, h);
    NotLit(cfg, side, h, tr);
    forall l | l in LinksOf(dag, Collecting(side, h)) ensures l in tr.log { CollectingLogged(cfg, side, h, tr, l); }
  }

  lemma CollectedLog(cfg: Config, side: seq<nat>, h: Hash, tr: Trace)
    requires cfg.nodes != [] && |side| == cfg.Quorum() && |side| >= 2 && Distinct(side) && CellsOk(tr.graph)
    requires tr.graph.status.Running? && tr.graph.round == 1
    requires var q := Evaluate(cfg, tr.graph, CollectingEntry(side, h), []);
             q.graph == tr.graph && Elements(side) <= q.work.state.VotesFor(Ballot(h, Slot(side[0], 1), 0)).prepares
    ensures var tr' := TakeStep(cfg, tr, Interpretation(CollectingEntry(side, h), []));
            tr'.graph.round == 1 && Collecting(side, h) in tr'.log && Backs(cfg, tr'.log[Collecting(side, h)], Slot(side[0], 1), h)
  {
    var e, slot := CollectingEntry(side, h), Slot(side[0], 1);
    StepLog(cfg, tr, e, []);
    ElementCount(side);
    hide TakeStep, Evaluate, CellsOk, Elements;
    var s := TakeStep(cfg, tr, Interpretation(e, [])).log[e.block];
    SubsetSize(Elements(side), s.VotesFor(Ballot(h, slot, 0)).prepares);
  }

  /** A run over one side that ends with a quorum of prepares. */
  lemma SideReached(cfg: Config, dag: Dag, side: seq<nat>, h: Hash)
    requires IsSide(cfg, dag, side, h)
    ensures Reached(cfg, dag, Slot(side[0], 1), h)
  {
    var e := CollectingEntry(side, h);
    var steps, tr := BeforeCollecting(cfg, dag, side, h);
    assert CellsOk(tr.graph) && tr.graph.status.Running? && tr.graph.round == 1;
    hide Run, Lit, MayStep, TakeStep, Evaluate, CellsOk, CollectingEntry, Elements, Backs, Reached;
    MayCollect(cfg, dag, side, h, tr);
    Collects(cfg, dag, side, h, tr);
    RunOn(cfg, dag, steps, tr, Interpretation(e, []));
    CollectedLog(cfg, side, h, tr);
    var tr' := TakeStep(cfg, tr, Interpretation(e, []));
    ReachedBy(cfg, dag, Slot(side[0], 1), h, 0, {}, steps + [Interpretation(e, [])], tr', Collecting(side, h));
  }
}
