/** How many nodes agreement needs. With f = (n - 1) / 3 and quorums of 2f + 1, which
    is what the graph computes for every n, interpreters of one DAG with at most f forking
    nodes can disagree exactly when n > 3 and n is not of the form 3f + 1. */
module ClusterSize {
  import opened Messages
  import opened Protocol
  import opened Interpreter
  import opened History
  import opened Agreement
  import opened SideRuns
  import opened Sets

  /** No two runs over one DAG with at most f forking nodes ever back two hashes. */
  ghost predicate Agrees(cfg: Config)
    requires cfg.nodes != []
  {
    forall dag: Dag, slot: Slot, h1: Hash, h2: Hash |
      && DagValid(cfg, dag) && |Forkers(cfg, dag)| <= cfg.Faults()
      && Reached(cfg, dag, slot, h1) && Reached(cfg, dag, slot, h2) :: h1 == h2
  }

  // ---------------------------------------------------------------------------
  // Where it holds.

  lemma {:induction false} RoundsFromOne(cfg: Config, dag: Dag, last: nat, past: set<BlockID>, steps: seq<Step>, tr: Trace)
    requires cfg.nodes != [] && Run(cfg, dag, last, past, steps, tr)
    ensures 1 <= tr.graph.round
  {
    hide CellsOk, Evaluate;
    if steps != [] {
      var init, step := steps[..|steps| - 1], steps[|steps| - 1];
      var t0 :| Run(cfg, dag, last, past, init, t0) && CellsOk(t0.graph) && MayStep(cfg, dag, t0, step) && tr == TakeStep(cfg, t0, step);
      RoundsFromOne(cfg, dag, last, past, init, t0);
      if step.Interpretation? { ProcessKeeps(cfg, t0.graph, step.entry, step.fired); }
    }
  }

  lemma ReachedIsCertified(cfg: Config, dag: Dag, slot: Slot, h: Hash)
    requires cfg.nodes != [] && DagValid(cfg, dag) && Reached(cfg, dag, slot, h)
    ensures TallyOf(cfg, dag, slot).Certified(h)
  {
    var last: nat, past: set<BlockID>, steps: seq<Step>, tr: Trace, b: BlockID :|
      Run(cfg, dag, last, past, steps, tr) && tr.graph.round <= slot.round && b in tr.log && Backs(cfg, tr.log[b], slot, h);
    hide Run, DagValid, TallyOf, LogOk, Backs;
    RoundsFromOne(cfg, dag, last, past, steps, tr);
    RunOk(cfg, dag, slot, last, past, steps, tr);
    BackedIsCertified(cfg, dag, slot, tr.log, b, h);
  }

  /** Without forks there is only one block to vote for. */
  lemma NoForksAgree(cfg: Config, dag: Dag, slot: Slot, h1: Hash, h2: Hash)
    requires cfg.Valid() && DagValid(cfg, dag) && Forkers(cfg, dag) == {}
    requires TallyOf(cfg, dag, slot).Certified(h1) && TallyOf(cfg, dag, slot).Certified(h2)
    ensures h1 == h2
  {
    CertifiedBlock(cfg, dag, slot, h1);
    CertifiedBlock(cfg, dag, slot, h2);
    var b1, b2 := BlockID(h1, slot.node, slot.round), BlockID(h2, slot.node, slot.round);
    assert BlockOk(cfg, dag, b1);
    assert slot.node !in Forkers(cfg, dag);
  }

  lemma CertifiedBlock(cfg: Config, dag: Dag, slot: Slot, h: Hash)
    requires cfg.nodes != [] && DagValid(cfg, dag) && TallyOf(cfg, dag, slot).Certified(h)
    ensures BlockID(h, slot.node, slot.round) in dag.links
  {
    var t := TallyOf(cfg, dag, slot);
    assert t.Voters(h) != {};
    var p :| p in t.Voters(h);
    assert Vote(p, h) in t.votes;
    if b :| b in dag.links && FirstSeen(dag, slot, b) == Some(h) {
      SeenIsBlock(cfg, dag, slot, b);
    }
  }

  // ---------------------------------------------------------------------------
  // A DAG with two sides that share f forking nodes.

  const ONE: Hash := [1]
  const TWO: Hash := [2]

  predicate Larger(cfg: Config) {
    cfg.nodes != [] && |cfg.nodes| > 3 * cfg.Faults() + 1 && cfg.Faults() > 0
  }

  function Ones(cfg: Config): seq<nat>
    requires Larger(cfg)
  {
    cfg.nodes[..cfg.Quorum()]
  }

  function Twos(cfg: Config): seq<nat>
    requires Larger(cfg)
  {
    cfg.nodes[..cfg.Faults()] + cfg.nodes[cfg.Quorum()..cfg.Quorum() + cfg.Faults() + 1]
  }

  function SideOf(cfg: Config, h: Hash): seq<nat>
    requires Larger(cfg)
  {
    if h == ONE then Ones(cfg) else Twos(cfg)
  }

  function Split(cfg: Config): Dag
    requires Larger(cfg)
  {
    var blocks := SideBlocks(Ones(cfg), ONE) + SideBlocks(Twos(cfg), TWO);
    Dag(map b | b in blocks :: LinksFor(SideOf(cfg, b.hash), b), map b | b in blocks :: b.round)
  }

  lemma TwosDistinct(cfg: Config)
    requires cfg.Valid() && Larger(cfg)
    ensures Distinct(Twos(cfg)) && |Twos(cfg)| == cfg.Quorum() && Twos(cfg)[0] == cfg.nodes[0]
  {
    var f, shift := cfg.Faults(), cfg.Faults() + 1;
    forall i, j | 0 <= i < j < |Twos(cfg)| ensures Twos(cfg)[i] != Twos(cfg)[j] {
      assert Twos(cfg)[i] == cfg.nodes[if i < f then i else i + shift];
      assert Twos(cfg)[j] == cfg.nodes[if j < f then j else j + shift];
    }
  }

  lemma SplitSides(cfg: Config)
    requires cfg.Valid() && Larger(cfg)
    ensures IsSide(cfg, Split(cfg), Ones(cfg), ONE) && IsSide(cfg, Split(cfg), Twos(cfg), TWO)
  {
    TwosDistinct(cfg);
    forall b | b in SideBlocks(Ones(cfg), ONE) ensures b.hash == ONE { }
    forall b | b in SideBlocks(Twos(cfg), TWO) ensures b.hash == TWO { }
  }

  lemma SideValid(cfg: Config, dag: Dag, side: seq<nat>, h: Hash, b: BlockID)
    requires IsSide(cfg, dag, side, h) && b in SideBlocks(side, h) && (forall p | p in side :: p in cfg.nodes)
    requires forall x | x in dag.links :: x in dag.top && dag.top[x] == x.round
    ensures BlockOk(cfg, dag, b)
  {
    assert Collecting(side, h) in SideBlocks(side, h);
    forall p | p in side ensures Lower(h, p) in dag.links { SideLinks(cfg, dag, side, h, p); }
    assert b.node in side && b.hash == h && side[0] in side;
    forall l | l in LinksOf(dag, b) ensures l in dag.links && l.Valid() && l.round == 1 {
      assert l.node in side && l == Lower(h, l.node);
    }
  }

  lemma SplitBlock(cfg: Config, b: BlockID)
    requires cfg.Valid() && Larger(cfg) && b in Split(cfg).links
    ensures b in SideBlocks(Ones(cfg), ONE) || b in SideBlocks(Twos(cfg), TWO)
    ensures b in Split(cfg).top && Split(cfg).top[b] == b.round && NO_BLOCK !in Split(cfg).links
  {
    hide LinksFor;
  }

  lemma SplitValid(cfg: Config)
    requires cfg.Valid() && Larger(cfg)
    ensures DagValid(cfg, Split(cfg))
  {
    var dag := Split(cfg);
    SplitSides(cfg);
    assert (forall p | p in Ones(cfg) :: p in cfg.nodes) && (forall p | p in Twos(cfg) :: p in cfg.nodes);
    assert Lower(ONE, Ones(cfg)[0]) in dag.links by { SideLinks(cfg, dag, Ones(cfg), ONE, Ones(cfg)[0]); }
    SplitBlock(cfg, Lower(ONE, Ones(cfg)[0]));
    hide Split, IsSide, SideBlocks, BlockOk, Ones, Twos;
    forall x | x in dag.links ensures x in dag.top && dag.top[x] == x.round { SplitBlock(cfg, x); }
    forall b | b in dag.links ensures BlockOk(cfg, dag, b) {
      SplitBlock(cfg, b);
      if b in SideBlocks(Ones(cfg), ONE) { SideValid(cfg, dag, Ones(cfg), ONE, b); } else { SideValid(cfg, dag, Twos(cfg), TWO, b); }
    }
  }

  lemma InBoth(cfg: Config, p: nat)
    requires cfg.Valid() && Larger(cfg) && p in Ones(cfg) && p in Twos(cfg)
    ensures p in cfg.nodes[..cfg.Faults()]
  {
    var f := cfg.Faults();
    var i :| 0 <= i < |Ones(cfg)| && Ones(cfg)[i] == p;
    var j :| 0 <= j < |Twos(cfg)| && Twos(cfg)[j] == p;
    assert cfg.nodes[i] == cfg.nodes[if j < f then j else j + f + 1];
    assert cfg.nodes[..f][j] == p;
  }

  /** A side has one block of a node for a round. */
  lemma OneBlock(side: seq<nat>, h: Hash, b: BlockID, b': BlockID)
    requires side != [] && b in SideBlocks(side, h) && b' in SideBlocks(side, h) && b.node == b'.node && b.round == b'.round
    ensures b == b'
  {
  }

  lemma OfSide(side: seq<nat>, h: Hash, b: BlockID)
    requires side != [] && b in SideBlocks(side, h)
    ensures b.node in side
  {
  }

  /** Only the nodes that both sides share have signed two blocks for a round. */
  lemma SplitForks(cfg: Config)
    requires cfg.Valid() && Larger(cfg)
    ensures |Forkers(cfg, Split(cfg))| <= cfg.Faults()
  {
    var faulty, dag := cfg.nodes[..cfg.Faults()], Split(cfg);
    ElementCount(faulty);
    TwosDistinct(cfg);
    hide SideBlocks, Split, Ones, Twos;
    forall p | p in Forkers(cfg, dag) ensures p in Elements(faulty) {
      var b, b' :| b in dag.links && b' in dag.links && b != b' && b.node == b'.node == p && b.round == b'.round;
      SplitBlock(cfg, b);
      SplitBlock(cfg, b');
      BothSides(cfg, b, b');
      InBoth(cfg, p);
    }
    SubsetSize(Forkers(cfg, dag), Elements(faulty));
  }

  lemma BothSides(cfg: Config, b: BlockID, b': BlockID)
    requires cfg.Valid() && Larger(cfg) && b != b' && b.node == b'.node && b.round == b'.round
    requires b in SideBlocks(Ones(cfg), ONE) || b in SideBlocks(Twos(cfg), TWO)
    requires b' in SideBlocks(Ones(cfg), ONE) || b' in SideBlocks(Twos(cfg), TWO)
    ensures b.node in Ones(cfg) && b.node in Twos(cfg)
  {
    TwosDistinct(cfg);
    assert |Ones(cfg)| == cfg.Quorum();
    hide SideBlocks, Ones, Twos;
    if b in SideBlocks(Ones(cfg), ONE) {
      OfSide(Ones(cfg), ONE, b);
      if b' in SideBlocks(Ones(cfg), ONE) { OneBlock(Ones(cfg), ONE, b, b'); } else { OfSide(Twos(cfg), TWO, b'); }
    } else {
      OfSide(Twos(cfg), TWO, b);
      if b' in SideBlocks(Twos(cfg), TWO) { OneBlock(Twos(cfg), TWO, b, b'); } else { OfSide(Ones(cfg), ONE, b'); }
    }
  }

  /** Two runs over the split DAG hold quorums for different hashes of one slot. */
  lemma SplitDisagrees(cfg: Config)
    requires cfg.Valid() && Larger(cfg)
    ensures var dag, slot := Split(cfg), Slot(cfg.nodes[0], 1);
            && DagValid(cfg, dag) && |Forkers(cfg, dag)| <= cfg.Faults()
            && Reached(cfg, dag, slot, ONE) && Reached(cfg, dag, slot, TWO)
  {
    SplitValid(cfg);
    SplitForks(cfg);
    SplitSides(cfg);
    TwosDistinct(cfg);
    assert Ones(cfg)[0] == Twos(cfg)[0] == cfg.nodes[0];
    hide Split, IsSide, Reached, DagValid, Forkers;
    SideReached(cfg, Split(cfg), Ones(cfg), ONE);
    SideReached(cfg, Split(cfg), Twos(cfg), TWO);
  }

  // ---------------------------------------------------------------------------

  /** Agreement of all runs, for exactly these cluster sizes. */
  lemma AgreementExactly(cfg: Config)
    requires cfg.Valid()
    ensures Agrees(cfg) <==> |cfg.nodes| % 3 == 1 || |cfg.nodes| <= 3
  {
    hide Reached, DagValid, TallyOf, Split;
    if |cfg.nodes| % 3 == 1 || |cfg.nodes| <= 3 {
      forall dag: Dag, slot: Slot, h1: Hash, h2: Hash |
        && DagValid(cfg, dag) && |Forkers(cfg, dag)| <= cfg.Faults()
        && Reached(cfg, dag, slot, h1) && Reached(cfg, dag, slot, h2)
        ensures h1 == h2
      {
        ReachedIsCertified(cfg, dag, slot, h1);
        ReachedIsCertified(cfg, dag, slot, h2);
        if |cfg.nodes| % 3 == 1 { CertifiedAgree(cfg, dag, slot, h1, h2); } else { NoForksAgree(cfg, dag, slot, h1, h2); }
      }
    } else {
      SplitDisagrees(cfg);
      assert ONE != TWO;
    }
  }
}
