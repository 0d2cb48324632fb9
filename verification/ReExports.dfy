/** Resolving a public name through chains of re-exports that may form cycles. */
module ReExports {
  import opened Wrappers

  /** One parsed module: its local definitions, and where imported names come from. */
  datatype Module = Module(local: map<string, nat>, imports: map<string, (string, string)>)

  datatype Definition = Definition(origin: string, name: string, node: nat)

  type Graph = map<string, Module>

  /** The definition a pair names by itself. */
  function Local(g: Graph, p: (string, string)): Option<Definition> {
    if p.0 in g && p.1 in g[p.0].local then Some(Definition(p.0, p.1, g[p.0].local[p.1])) else None
  }

  /** The pair one import away; a local definition hides an import of the same name. */
  function Hop(g: Graph, p: (string, string)): Option<(string, string)> {
    if p.0 in g && p.1 !in g[p.0].local && p.1 in g[p.0].imports then Some(g[p.0].imports[p.1]) else None
  }

  /** Everything an import can lead to. */
  function Targets(g: Graph): set<(string, string)> {
    set m, n | m in g && n in g[m].imports :: g[m].imports[n]
  }

  /** The chain walk; `seen` stops it on a cycle. Each call has fewer unseen pairs left. */
  function Resolve(g: Graph, p: (string, string), seen: set<(string, string)>): Option<Definition>
    decreases Targets(g) + {p} - seen
  {
    if p in seen || p.0 !in g then None
    else if p.1 in g[p.0].local then Some(Definition(p.0, p.1, g[p.0].local[p.1]))
    else if p.1 in g[p.0].imports then
      var next := g[p.0].imports[p.1];
      assert next in Targets(g);
      assert p in Targets(g) + {p} - seen && p !in Targets(g) + {next} - (seen + {p});
      assert Targets(g) + {next} - (seen + {p}) < Targets(g) + {p} - seen;
      Resolve(g, next, seen + {p})
    else None
  }

  /** The pair after `k` hops, while the chain lasts. */
  function After(g: Graph, p: (string, string), k: nat): Option<(string, string)>
    decreases k
  {
    if k == 0 then Some(p)
    else if Hop(g, p).None? then None
    else After(g, Hop(g, p).value, k - 1)
  }

  /** Following imports from `p`, the chain arrives at this local definition. */
  ghost predicate Reaches(g: Graph, p: (string, string), d: Definition) {
    exists k: nat :: After(g, p, k).Some? && Local(g, After(g, p, k).value) == Some(d)
  }

  lemma {:induction false} AfterCompose(g: Graph, p: (string, string), j: nat, k: nat)
    requires After(g, p, j).Some?
    ensures After(g, p, j + k) == After(g, After(g, p, j).value, k)
    decreases j
  {
    if j > 0 {
      AfterCompose(g, Hop(g, p).value, j - 1, k);
    }
  }

  /** A local definition ends its chain, so a chain arrives at most once. */
  lemma ArrivesOnce(g: Graph, p: (string, string), j: nat, k: nat)
    requires After(g, p, j).Some? && Local(g, After(g, p, j).value).Some? && After(g, p, k).Some?
    ensures k <= j
  {
    if k > j {
      AfterCompose(g, p, j, k - j);
    }
  }

  /** A pair that hops back to itself never arrives anywhere. */
  lemma {:induction false} CycleNeverArrives(g: Graph, p: (string, string), n: nat, k: nat)
    requires n > 0 && After(g, p, n) == Some(p)
    requires After(g, p, k).Some?
    ensures Local(g, After(g, p, k).value).None?
    decreases k
  {
    AfterCompose(g, p, n, k);
    if Local(g, After(g, p, k).value).Some? {
      ArrivesOnce(g, p, k, n + k);
    }
  }

  /** Pairs already seen lead here by at least one hop. */
  ghost predicate LeadsHere(g: Graph, seen: set<(string, string)>, p: (string, string)) {
    forall q :: q in seen ==> exists n: nat :: n > 0 && After(g, q, n) == Some(p)
  }

  lemma SeenLeadsOn(g: Graph, seen: set<(string, string)>, p: (string, string))
    requires LeadsHere(g, seen, p) && Hop(g, p).Some?
    ensures LeadsHere(g, seen + {p}, Hop(g, p).value)
  {
    var next := Hop(g, p).value;
    assert After(g, p, 1) == Some(next) by { assert After(g, next, 0) == Some(next); }
    forall q | q in seen + {p} ensures exists n: nat :: n > 0 && After(g, q, n) == Some(next) {
      if q in seen {
        var n: nat :| n > 0 && After(g, q, n) == Some(p);
        AfterCompose(g, q, n, 1);
        assert After(g, q, n + 1) == Some(next);
      }
    }
  }

  lemma ReachesByHop(g: Graph, p: (string, string), d: Definition)
    requires Hop(g, p).Some?
    ensures Reaches(g, p, d) <==> Reaches(g, Hop(g, p).value, d)
  {
    var next := Hop(g, p).value;
    if Reaches(g, p, d) {
      var k: nat :| After(g, p, k).Some? && Local(g, After(g, p, k).value) == Some(d);
      assert k > 0;
      assert After(g, p, k) == After(g, next, k - 1);
    }
    if Reaches(g, next, d) {
      var k: nat :| After(g, next, k).Some? && Local(g, After(g, next, k).value) == Some(d);
      assert After(g, p, k + 1) == After(g, next, k);
    }
  }

  lemma {:induction false} ResolveFrom(g: Graph, p: (string, string), seen: set<(string, string)>, d: Definition)
    requires LeadsHere(g, seen, p)
    ensures Resolve(g, p, seen) == Some(d) <==> Reaches(g, p, d)
    decreases Targets(g) + {p} - seen
  {
    if p in seen {
      var n: nat :| n > 0 && After(g, p, n) == Some(p);
      if Reaches(g, p, d) {
        var k: nat :| After(g, p, k).Some? && Local(g, After(g, p, k).value) == Some(d);
        CycleNeverArrives(g, p, n, k);
      }
    } else if Hop(g, p).Some? {
      var next := Hop(g, p).value;
      assert next in Targets(g);
      assert p in Targets(g) + {p} - seen && p !in Targets(g) + {next} - (seen + {p});
      assert Targets(g) + {next} - (seen + {p}) < Targets(g) + {p} - seen;
      SeenLeadsOn(g, seen, p);
      ResolveFrom(g, next, seen + {p}, d);
      ReachesByHop(g, p, d);
    } else {
      assert After(g, p, 0) == Some(p);
      if Reaches(g, p, d) {
        var k: nat :| After(g, p, k).Some? && Local(g, After(g, p, k).value) == Some(d);
        assert k == 0;
      }
    }
  }

  /** Resolution finds a definition exactly when the import chain reaches it, cycles or not. */
  lemma ResolveIsReachability(g: Graph, start: (string, string), d: Definition)
    ensures Resolve(g, start, {}) == Some(d) <==> Reaches(g, start, d)
    ensures Resolve(g, start, {}).None? <==> forall e :: !Reaches(g, start, e)
  {
    ResolveFrom(g, start, {}, d);
    if Resolve(g, start, {}).Some? {
      ResolveFrom(g, start, {}, Resolve(g, start, {}).value);
    }
    forall e ensures Resolve(g, start, {}) == Some(e) <==> Reaches(g, start, e) {
      ResolveFrom(g, start, {}, e);
    }
  }

  /** A local definition is found at once; otherwise an import is as good as what it names. */
  lemma ResolveFollowsImports(g: Graph, origin: string, name: string)
    requires origin in g
    ensures var r := Resolve(g, (origin, name), {});
      if name in g[origin].local then r == Some(Definition(origin, name, g[origin].local[name]))
      else if name in g[origin].imports then r == Resolve(g, g[origin].imports[name], {})
      else r.None?
  {
    var p := (origin, name);
    if Hop(g, p).Some? {
      var next := Hop(g, p).value;
      ResolveIsReachability(g, next, Definition("", "", 0));
      forall d ensures Resolve(g, p, {}) == Some(d) <==> Resolve(g, next, {}) == Some(d) {
        ResolveIsReachability(g, p, d);
        ResolveIsReachability(g, next, d);
        ReachesByHop(g, p, d);
      }
      if Resolve(g, p, {}).Some? {
        assert Resolve(g, next, {}) == Some(Resolve(g, p, {}).value);
      }
      if Resolve(g, next, {}).Some? {
        assert Resolve(g, p, {}) == Some(Resolve(g, next, {}).value);
      }
    }
  }
}
