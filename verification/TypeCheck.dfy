/** Checking a transaction's traces: which version ids they consume and which they
    only refer to, over the whole nested forest. */
module TypeCheck {
  import opened Bytes
  import opened Sets

  type Id = Bytes

  /** A trace: its version ids, how many objects it takes and gives, and the traces
      that it depends on. */
  datatype Trace = Trace(
    contract: string, procedure: string,
    inputs: seq<Id>, references: seq<Id>,
    inputObjects: nat, outputObjects: nat,
    dependencies: seq<Trace>)

  /** Seen as a reference, or as an input. */
  datatype IdState = Active | Inactive

  predicate WellFormed(t: Trace) {
    t.contract != "" && t.procedure != "" && t.inputObjects == t.outputObjects
  }

  // ---------------------------------------------------------------------------
  // The forest without its order.

  predicate AllWellFormed(traces: seq<Trace>) {
    traces == [] ||
    var t := traces[|traces| - 1];
    AllWellFormed(traces[..|traces| - 1]) && AllWellFormed(t.dependencies) && WellFormed(t)
  }

  function Inputs(traces: seq<Trace>): multiset<Id> {
    if traces == [] then multiset{}
    else
      var t := traces[|traces| - 1];
      Inputs(traces[..|traces| - 1]) + (Inputs(t.dependencies) + multiset(t.inputs))
  }

  function References(traces: seq<Trace>): set<Id> {
    if traces == [] then {}
    else
      var t := traces[|traces| - 1];
      References(traces[..|traces| - 1]) + (References(t.dependencies) + Elements(t.references))
  }

  /** Inputs are pairwise distinct, none is also a reference, and every trace is
      well formed. */
  ghost predicate Typed(traces: seq<Trace>) {
    && AllWellFormed(traces)
    && forall id | id in Inputs(traces) :: Inputs(traces)[id] == 1 && id !in References(traces)
  }

  /** One trace's share of the three. */
  lemma Single(t: Trace)
    ensures AllWellFormed([t]) == (AllWellFormed(t.dependencies) && WellFormed(t))
    ensures Inputs([t]) == Inputs(t.dependencies) + multiset(t.inputs)
    ensures References([t]) == References(t.dependencies) + Elements(t.references)
  {
    assert [t][..0] == [];
  }

  /** A list's share is that of its last trace and of the others. */
  lemma LastApart(traces: seq<Trace>)
    requires traces != []
    ensures var init, t := traces[..|traces| - 1], [traces[|traces| - 1]];
            && AllWellFormed(traces) == (AllWellFormed(init) && AllWellFormed(t))
            && Inputs(traces) == Inputs(init) + Inputs(t) && References(traces) == References(init) + References(t)
  {
    Single(traces[|traces| - 1]);
  }

  lemma {:induction false} Appended(a: seq<Trace>, b: seq<Trace>)
    ensures AllWellFormed(a + b) == (AllWellFormed(a) && AllWellFormed(b))
    ensures Inputs(a + b) == Inputs(a) + Inputs(b) && References(a + b) == References(a) + References(b)
  {
    if b == [] {
      assert a + b == a;
    } else {
      hide *;
      var init := b[..|b| - 1];
      assert (a + b)[..|a + b| - 1] == a + init && (a + b)[|a + b| - 1] == b[|b| - 1];
      Appended(a, init);
      LastApart(a + b);
      LastApart(b);
    }
  }

  function Without(b: seq<Trace>, i: nat): seq<Trace>
    requires i < |b|
  {
    b[..i] + b[i + 1..]
  }

  lemma TakenOut(b: seq<Trace>, i: nat)
    requires i < |b|
    ensures AllWellFormed(b) == (AllWellFormed(Without(b, i)) && AllWellFormed([b[i]]))
    ensures Inputs(b) == Inputs(Without(b, i)) + Inputs([b[i]]) && References(b) == References(Without(b, i)) + References([b[i]])
    ensures multiset(Without(b, i)) == multiset(b) - multiset{b[i]}
  {
    hide AllWellFormed, Inputs, References;
    var t := b[i];
    assert b == b[..i] + ([t] + b[i + 1..]);
    Appended(b[..i], [t] + b[i + 1..]);
    Appended([t], b[i + 1..]);
    Appended(b[..i], b[i + 1..]);
    assert multiset(b) == multiset(b[..i]) + (multiset{t} + multiset(b[i + 1..]));
  }

  /** Permuting traces changes none of the three. */
  lemma {:induction false} Permuted(a: seq<Trace>, b: seq<Trace>)
    requires multiset(a) == multiset(b)
    ensures AllWellFormed(a) == AllWellFormed(b) && Inputs(a) == Inputs(b) && References(a) == References(b)
    decreases |a|
  {
    hide *;
    if a == [] {
      assert |b| == |multiset(b)| == 0;
    } else {
      var n := |a| - 1;
      assert a[n] in multiset(b);
      var i :| 0 <= i < |b| && b[i] == a[n];
      TakenOut(a, n);
      TakenOut(b, i);
      assert |Without(a, n)| < |a| by { assert |multiset(Without(a, n))| == |Without(a, n)| && |multiset(a)| == |a|; }
      Permuted(Without(a, n), Without(b, i));
    }
  }

  // ---------------------------------------------------------------------------
  // Checking with a map of what was seen.

  /** These inputs and references are fine after what `ids` has seen. */
  ghost predicate Fine(ids: map<Id, IdState>, inputs: multiset<Id>, refs: set<Id>) {
    && (forall id | id in inputs :: inputs[id] == 1 && id !in ids && id !in refs)
    && (forall r | r in refs && r in ids :: ids[r] == Active)
  }

  function Seen(ids: map<Id, IdState>, inputs: multiset<Id>, refs: set<Id>): map<Id, IdState> {
    map id | id in ids.Keys + (set x | x in inputs) + refs ::
      if id in inputs then Inactive else if id in ids then ids[id] else Active
  }

  lemma ComposeFine(ids: map<Id, IdState>, b1: multiset<Id>, r1: set<Id>, b2: multiset<Id>, r2: set<Id>)
    requires Fine(ids, b1 + b2, r1 + r2)
    ensures Fine(ids, b1, r1) && Fine(Seen(ids, b1, r1), b2, r2)
  {
    forall id | id in b1 ensures b1[id] == 1 && id !in b2 && id !in r2 && id !in ids && id !in r1 { assert id in b1 + b2; }
    forall id | id in b2 ensures b2[id] == 1 && id !in b1 && id !in r1 && id !in ids && id !in r2 { assert id in b1 + b2; }
    forall r | r in r1 && r in ids ensures ids[r] == Active { assert r in r1 + r2; }
    forall r | r in r2 && r in Seen(ids, b1, r1) ensures Seen(ids, b1, r1)[r] == Active { assert r in r1 + r2; }
  }

  lemma ComposeSeen(ids: map<Id, IdState>, b1: multiset<Id>, r1: set<Id>, b2: multiset<Id>, r2: set<Id>)
    requires Fine(ids, b1, r1) && Fine(Seen(ids, b1, r1), b2, r2)
    ensures Seen(ids, b1 + b2, r1 + r2) == Seen(Seen(ids, b1, r1), b2, r2)
  {
    hide Fine;
    var x, y := Seen(ids, b1 + b2, r1 + r2), Seen(Seen(ids, b1, r1), b2, r2);
    assert x.Keys == y.Keys;
    forall id | id in x ensures x[id] == y[id] {}
  }

  lemma ComposeBack(ids: map<Id, IdState>, b1: multiset<Id>, r1: set<Id>, b2: multiset<Id>, r2: set<Id>)
    requires Fine(ids, b1, r1) && Fine(Seen(ids, b1, r1), b2, r2)
    ensures Fine(ids, b1 + b2, r1 + r2)
  {
    forall id | id in b1 + b2 ensures (b1 + b2)[id] == 1 && id !in ids && id !in r1 + r2 {
      if id in b1 {
        assert id in Seen(ids, b1, r1) && Seen(ids, b1, r1)[id] == Inactive;
      } else {
        assert id !in Seen(ids, b1, r1);
      }
    }
    forall r | r in r1 + r2 && r in ids ensures ids[r] == Active {
      if r !in r1 { assert r in Seen(ids, b1, r1) && r !in b1; }
    }
  }

  /** What is checked in two parts is checked as a whole. */
  lemma Compose(ids: map<Id, IdState>, b1: multiset<Id>, r1: set<Id>, b2: multiset<Id>, r2: set<Id>)
    ensures Fine(ids, b1 + b2, r1 + r2) <==> Fine(ids, b1, r1) && Fine(Seen(ids, b1, r1), b2, r2)
    ensures Fine(ids, b1 + b2, r1 + r2) ==> Seen(ids, b1 + b2, r1 + r2) == Seen(Seen(ids, b1, r1), b2, r2)
  {
    if Fine(ids, b1 + b2, r1 + r2) { ComposeFine(ids, b1, r1, b2, r2); }
    if Fine(ids, b1, r1) && Fine(Seen(ids, b1, r1), b2, r2) {
      ComposeBack(ids, b1, r1, b2, r2);
      ComposeSeen(ids, b1, r1, b2, r2);
    }
  }

  lemma NoInputs(ids: map<Id, IdState>)
    ensures Fine(ids, multiset{}, {}) && Seen(ids, multiset{}, {}) == ids
  {
  }

  /** One more input is fine unless it was seen, and is then seen. */
  lemma InputStep(ids: map<Id, IdState>, inputs: seq<Id>, i: nat)
    requires i < |inputs| && Fine(ids, multiset(inputs[..i]), {})
    ensures var now := Seen(ids, multiset(inputs[..i]), {});
            if inputs[i] in now then !Fine(ids, multiset(inputs), {})
            else Fine(ids, multiset(inputs[..i + 1]), {}) && now[inputs[i] := Inactive] == Seen(ids, multiset(inputs[..i + 1]), {})
  {
    hide Fine, Seen;
    var v, none: set<Id> := inputs[i], {};
    assert inputs[..i + 1] == inputs[..i] + [v];
    assert multiset(inputs[..i + 1]) == multiset(inputs[..i]) + multiset{v};
    assert none + none == none;
    Compose(ids, multiset(inputs[..i]), none, multiset{v}, none);
    OneInput(Seen(ids, multiset(inputs[..i]), none), v);
    if v in Seen(ids, multiset(inputs[..i]), none) { FineParts(ids, inputs, i + 1); }
  }

  // ---------------------------------------------------------------------------
  // The checker, which keeps one map for the whole forest.

  class Checker {
    var ids: map<Id, IdState>

    constructor ()
      ensures ids == map[]
    {
      ids := map[];
    }

    method TakeInputs(inputs: seq<Id>) returns (ok: bool)
      modifies this
      ensures ok <==> Fine(old(ids), multiset(inputs), {})
      ensures ok ==> ids == Seen(old(ids), multiset(inputs), {})
    {
      hide Fine, Seen;
      var i := 0;
      NoInputs(ids);
      assert multiset(inputs[..0]) == multiset{};
      while i < |inputs|
        invariant i <= |inputs| && Fine(old(ids), multiset(inputs[..i]), {}) && ids == Seen(old(ids), multiset(inputs[..i]), {})
      {
        var v := inputs[i];
        InputStep(old(ids), inputs, i);
        if v in ids { return false; }
        ids := ids[v := Inactive];
        i := i + 1;
      }
      assert inputs[..|inputs|] == inputs;
      ok := true;
    }

    method TakeReferences(refs: seq<Id>) returns (ok: bool)
      modifies this
      ensures ok <==> Fine(old(ids), multiset{}, Elements(refs))
      ensures ok ==> ids == Seen(old(ids), multiset{}, Elements(refs))
    {
      var i := 0;
      assert Elements(refs[..0]) == {} && Seen(ids, multiset{}, {}) == ids;
      while i < |refs|
        invariant i <= |refs| && Fine(old(ids), multiset{}, Elements(refs[..i])) && ids == Seen(old(ids), multiset{}, Elements(refs[..i]))
      {
        var v := refs[i];
        assert refs[..i + 1] == refs[..i] + [v];
        assert Elements(refs[..i + 1]) == Elements(refs[..i]) + {v};
        if v in ids {
          if ids[v] == Inactive {
            assert v in Elements(refs) && v in old(ids) && old(ids)[v] == Inactive;
            return false;
          }
        } else {
          ids := ids[v := Active];
        }
        assert ids == Seen(old(ids), multiset{}, Elements(refs[..i + 1]));
        i := i + 1;
      }
      assert refs[..|refs|] == refs;
      ok := true;
    }

    /** One trace, after those it depends on. */
    method CheckOne(t: Trace) returns (ok: bool)
      modifies this
      ensures ok <==> AllWellFormed([t]) && Fine(old(ids), Inputs([t]), References([t]))
      ensures ok ==> ids == Seen(old(ids), Inputs([t]), References([t]))
      decreases t, 0
    {
      InParts(ids, t);
      hide Fine, Seen, Inputs, References, AllWellFormed;
      ok := Check(t.dependencies);
      if !ok { return; }
      if |t.contract| <= 0 { return false; }
      if |t.procedure| <= 0 { return false; }
      if t.outputObjects != t.inputObjects { return false; }
      ok := TakeInputs(t.inputs);
      if !ok { return; }
      ok := TakeReferences(t.references);
    }

    /** All traces, one after the other. */
    method Check(traces: seq<Trace>) returns (ok: bool)
      modifies this
      ensures ok <==> AllWellFormed(traces) && Fine(old(ids), Inputs(traces), References(traces))
      ensures ok ==> ids == Seen(old(ids), Inputs(traces), References(traces))
      decreases traces, 1
    {
      hide *;
      var i := 0;
      Nothing(ids);
      assert traces[..0] == [];
      while i < |traces|
        invariant i <= |traces| && AllWellFormed(traces[..i])
        invariant Fine(old(ids), Inputs(traces[..i]), References(traces[..i]))
        invariant ids == Seen(old(ids), Inputs(traces[..i]), References(traces[..i]))
      {
        Onward(old(ids), traces, i);
        ok := CheckOne(traces[i]);
        if !ok { return; }
        i := i + 1;
      }
      assert traces[..|traces|] == traces;
      ok := true;
    }
  }

  lemma Nothing(ids: map<Id, IdState>)
    ensures AllWellFormed([]) && Fine(ids, Inputs([]), References([])) && Seen(ids, Inputs([]), References([])) == ids
  {
  }

  /** A trace is fine when its dependencies are, then its inputs, then its references. */
  lemma InParts(ids: map<Id, IdState>, t: Trace)
    ensures AllWellFormed([t]) == (AllWellFormed(t.dependencies) && WellFormed(t))
    ensures var s1 := Seen(ids, Inputs(t.dependencies), References(t.dependencies));
            var s2 := Seen(s1, multiset(t.inputs), {});
            && (Fine(ids, Inputs([t]), References([t])) <==>
                Fine(ids, Inputs(t.dependencies), References(t.dependencies)) && Fine(s1, multiset(t.inputs), {}) && Fine(s2, multiset{}, Elements(t.references)))
            && (Fine(ids, Inputs([t]), References([t])) ==> Seen(ids, Inputs([t]), References([t])) == Seen(s2, multiset{}, Elements(t.references)))
  {
    Single(t);
    hide Fine, Seen, Inputs, References, AllWellFormed;
    var s1 := Seen(ids, Inputs(t.dependencies), References(t.dependencies));
    Compose(ids, Inputs(t.dependencies), References(t.dependencies), multiset(t.inputs), Elements(t.references));
    Compose(s1, multiset(t.inputs), {}, multiset{}, Elements(t.references));
    assert multiset(t.inputs) + multiset{} == multiset(t.inputs) && {} + Elements(t.references) == Elements(t.references);
  }

  /** What the trace at `i` decides about the list up to it, and about the whole. */
  lemma Onward(ids: map<Id, IdState>, traces: seq<Trace>, i: nat)
    requires i < |traces| && AllWellFormed(traces[..i]) && Fine(ids, Inputs(traces[..i]), References(traces[..i]))
    ensures var now := Seen(ids, Inputs(traces[..i]), References(traces[..i])); var t := [traces[i]];
            var fine := AllWellFormed(t) && Fine(now, Inputs(t), References(t));
            && (AllWellFormed(traces[..i + 1]) && Fine(ids, Inputs(traces[..i + 1]), References(traces[..i + 1])) <==> fine)
            && (fine ==> Seen(ids, Inputs(traces[..i + 1]), References(traces[..i + 1])) == Seen(now, Inputs(t), References(t)))
            && (AllWellFormed(traces) && Fine(ids, Inputs(traces), References(traces)) ==> fine)
  {
    hide Fine, Seen, Inputs, References, AllWellFormed;
    var p, t, rest := traces[..i], [traces[i]], traces[i + 1..];
    assert traces[..i + 1] == p + t && traces == (p + t) + rest;
    Appended(p, t);
    Appended(p + t, rest);
    Compose(ids, Inputs(p), References(p), Inputs(t), References(t));
    Compose(ids, Inputs(p + t), References(p + t), Inputs(rest), References(rest));
  }

  /** `TypeCheck`: the verdict on a transaction. */
  method CheckTransaction(traces: seq<Trace>) returns (ok: bool)
    ensures ok <==> Typed(traces)
  {
    var c := new Checker();
    ok := c.Check(traces);
  }

  /** The verdict does not depend on the order of the traces. */
  lemma OrderIndependent(a: seq<Trace>, b: seq<Trace>)
    requires multiset(a) == multiset(b)
    ensures Typed(a) <==> Typed(b)
  {
    Permuted(a, b);
  }

  /** The same forest with its traces, and at every depth the dependencies of a trace,
      in another order. */
  ghost predicate Shuffled(a: seq<Trace>, b: seq<Trace>)
    decreases a
  {
    exists p: seq<Trace> :: multiset(p) == multiset(b) && |p| == |a| && forall i | 0 <= i < |a| :: Alike(a[i], p[i])
  }

  ghost predicate Alike(t: Trace, u: Trace)
    decreases t
  {
    u == t.(dependencies := u.dependencies) && Shuffled(t.dependencies, u.dependencies)
  }

  ghost predicate SameShare(a: seq<Trace>, b: seq<Trace>) {
    AllWellFormed(a) == AllWellFormed(b) && Inputs(a) == Inputs(b) && References(a) == References(b)
  }

  lemma {:induction false} SameEach(a: seq<Trace>, b: seq<Trace>)
    requires |a| == |b| && forall i | 0 <= i < |a| :: SameShare([a[i]], [b[i]])
    ensures SameShare(a, b)
    decreases |a|
  {
    if a != [] {
      var n := |a| - 1;
      assert SameShare([a[n]], [b[n]]);
      SameEach(a[..n], b[..n]);
      LastApart(a);
      LastApart(b);
      hide AllWellFormed, Inputs, References;
    }
  }

  lemma {:induction false} AlikeShare(t: Trace, u: Trace)
    requires Alike(t, u)
    ensures SameShare([t], [u])
    decreases t
  {
    ShuffledShare(t.dependencies, u.dependencies);
    Single(t);
    Single(u);
    hide AllWellFormed, Inputs, References;
  }

  lemma {:induction false} ShuffledShare(a: seq<Trace>, b: seq<Trace>)
    requires Shuffled(a, b)
    ensures SameShare(a, b)
    decreases a
  {
    var p: seq<Trace> :| multiset(p) == multiset(b) && |p| == |a| && forall i | 0 <= i < |a| :: Alike(a[i], p[i]);
    hide Alike, AllWellFormed, Inputs, References;
    forall i | 0 <= i < |a| ensures SameShare([a[i]], [p[i]]) { AlikeShare(a[i], p[i]); }
    SameEach(a, p);
    Permuted(p, b);
  }

  /** Nor on the order of the dependencies of any trace, at whatever depth. */
  lemma OrderIndependentWithin(a: seq<Trace>, b: seq<Trace>)
    requires Shuffled(a, b)
    ensures Typed(a) <==> Typed(b)
  {
    ShuffledShare(a, b);
    hide AllWellFormed, Inputs, References;
  }

  lemma AlikeSelf(t: Trace)
    ensures Alike(t, t)
    decreases t
  {
    forall i | 0 <= i < |t.dependencies| ensures Alike(t.dependencies[i], t.dependencies[i]) { AlikeSelf(t.dependencies[i]); }
  }

  /** Permuting the dependencies of one trace of the list is such a reordering. */
  lemma OnePermuted(traces: seq<Trace>, i: nat, deps: seq<Trace>)
    requires i < |traces| && multiset(deps) == multiset(traces[i].dependencies)
    ensures Shuffled(traces, traces[i := traces[i].(dependencies := deps)])
  {
    var t := traces[i].(dependencies := deps);
    var changed := traces[i := t];
    forall k | 0 <= k < |traces[i].dependencies| ensures Alike(traces[i].dependencies[k], traces[i].dependencies[k]) { AlikeSelf(traces[i].dependencies[k]); }
    assert |traces[i].dependencies| == |multiset(deps)| == |deps|;
    assert Shuffled(traces[i].dependencies, deps);
    forall k | 0 <= k < |traces| ensures Alike(traces[k], changed[k]) {
      if k != i { AlikeSelf(traces[k]); }
    }
  }

  lemma OneInput(ids: map<Id, IdState>, v: Id)
    ensures Fine(ids, multiset{v}, {}) <==> v !in ids
    ensures Seen(ids, multiset{v}, {}) == ids[v := Inactive]
  {
    assert v in multiset{v};
  }

  lemma FineParts(ids: map<Id, IdState>, inputs: seq<Id>, n: nat)
    requires n <= |inputs|
    ensures Fine(ids, multiset(inputs), {}) ==> Fine(ids, multiset(inputs[..n]), {})
  {
    assert inputs == inputs[..n] + inputs[n..];
    assert multiset(inputs) == multiset(inputs[..n]) + multiset(inputs[n..]);
    Compose(ids, multiset(inputs[..n]), {}, multiset(inputs[n..]), {});
  }
}
