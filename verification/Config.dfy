/** Bundle inheritance, its validation, and routing. */
module Config {
  import opened Wrappers

  /** One bundle's own layer; `strict` only if the layer says so. */
  datatype Bundle = Bundle(base: string, memory: seq<string>, skills: seq<string>, plugins: seq<string>,
                           mcp: seq<string>, strict: Option<bool>)

  /** A name may be declared with nothing behind it. */
  type Bundles = map<string, Option<Bundle>>

  datatype Resolved = Resolved(memory: seq<string>, skills: seq<string>, plugins: seq<string>, mcp: seq<string>, strict: bool)

  /** `Crash`: an empty definition is dereferenced. */
  datatype Outcome<T> = Ok(value: T) | Circular | Missing(name: string) | Crash(name: string)

  // ------------------------------------------------------------------
  // The chain
  // ------------------------------------------------------------------

  predicate Defined(bundles: Bundles, name: string) {
    name != "" && name in bundles && bundles[name].Some?
  }

  predicate AllDefined(bundles: Bundles, names: seq<string>) {
    forall i | 0 <= i < |names| :: Defined(bundles, names[i])
  }

  /** The names from `cur` upwards, most specific first. */
  function Walk(bundles: Bundles, cur: string, seen: set<string>): (r: Outcome<seq<string>>)
    ensures r.Ok? ==> AllDefined(bundles, r.value)
    decreases |bundles.Keys - seen|
  {
    if cur == "" then Ok([])
    else if cur in seen then Circular
    else if cur !in bundles then Missing(cur)
    else if bundles[cur].None? then Crash(cur)
    else
      assert bundles.Keys - (seen + {cur}) < bundles.Keys - seen by { assert cur in bundles.Keys - seen; }
      SubsetSize(bundles.Keys - (seen + {cur}), bundles.Keys - seen);
      match Walk(bundles, bundles[cur].value.base, seen + {cur})
      case Ok(rest) => Ok([cur] + rest)
      case Circular => Circular
      case Missing(n) => Missing(n)
      case Crash(n) => Crash(n)
  }

  const NO_LAYER := Resolved([], [], [], [], true)

  function Extended(base: Resolved, b: Bundle): Resolved {
    Resolved(base.memory + b.memory, base.skills + b.skills, base.plugins + b.plugins, base.mcp + b.mcp,
             if b.strict.Some? then b.strict.value else base.strict)
  }

  /** A bundle is what it extends, plus its own layer. */
  function Flattened(bundles: Bundles, chain: seq<string>): Resolved
    requires AllDefined(bundles, chain)
  {
    if chain == [] then NO_LAYER
    else Extended(Flattened(bundles, chain[1..]), bundles[chain[0]].value)
  }

  function Resolve(bundles: Bundles, name: string): Outcome<Resolved> {
    match Walk(bundles, name, {})
    case Ok(chain) => Ok(Flattened(bundles, chain))
    case Circular => Circular
    case Missing(n) => Missing(n)
    case Crash(n) => Crash(n)
  }

  // ------------------------------------------------------------------
  // When it resolves
  // ------------------------------------------------------------------

  /** `path` follows the extends links from `name`. */
  predicate Path(bundles: Bundles, name: string, path: seq<string>) {
    && (forall i | 0 <= i < |path| :: Defined(bundles, path[i]))
    && (path != [] ==> path[0] == name)
    && (forall i | 0 <= i < |path| - 1 :: path[i + 1] == bundles[path[i]].value.base)
  }

  predicate Hollow(bundles: Bundles, name: string) {
    name != "" && name in bundles && bundles[name].None?
  }

  function Next(bundles: Bundles, name: string, path: seq<string>): string
    requires Path(bundles, name, path)
  {
    if path == [] then name else bundles[path[|path| - 1]].value.base
  }

  /** Paths differ only in how far they go. */
  lemma {:induction false} Deterministic(bundles: Bundles, name: string, p: seq<string>, q: seq<string>)
    requires Path(bundles, name, p) && Path(bundles, name, q) && |p| <= |q|
    ensures p == q[..|p|] && (|p| < |q| ==> Next(bundles, name, p) == q[|p|])
  {
    if p != [] {
      Deterministic(bundles, name, p[..|p| - 1], q);
    }
  }

  /** Once a path has closed a circle it never leaves it. */
  lemma {:induction false} Circles(bundles: Bundles, name: string, q: seq<string>, p: seq<string>)
    requires Path(bundles, name, q) && Next(bundles, name, q) in q
    requires Path(bundles, name, p) && |q| <= |p|
    ensures Next(bundles, name, p) in q && forall n | n in p :: n in q
  {
    Deterministic(bundles, name, q, p);
    if |p| > |q| {
      var front, n := p[..|p| - 1], p[|p| - 1];
      Circles(bundles, name, q, front);
      assert Next(bundles, name, front) == n by { Deterministic(bundles, name, front, p); }
      var i :| 0 <= i < |q| && q[i] == n;
      assert Next(bundles, name, p) == bundles[q[i]].value.base;
      assert i == |q| - 1 || q[i + 1] == Next(bundles, name, p);
    }
  }

  datatype End = Complete | Loop | NoSuch(name: string) | Empty(name: string)

  function EndOf<T>(r: Outcome<T>): End {
    match r
    case Ok(_) => Complete
    case Circular => Loop
    case Missing(n) => NoSuch(n)
    case Crash(n) => Empty(n)
  }

  /** What stops a walk at the end of `path`. */
  predicate EndsAs(bundles: Bundles, name: string, path: seq<string>, e: End)
    requires Path(bundles, name, path)
  {
    var next := Next(bundles, name, path);
    match e
    case Complete => next == ""
    case Loop => next in path
    case NoSuch(n) => next == n && n != "" && n !in bundles
    case Empty(n) => next == n && Hollow(bundles, n)
  }

  /** `seen` are the names passed so far. */
  ghost predicate Passed(seen: set<string>, before: seq<string>) {
    forall n :: n in seen <==> n in before
  }

  lemma PassedOne(seen: set<string>, before: seq<string>, cur: string)
    requires Passed(seen, before)
    ensures Passed(seen + {cur}, before + [cur])
  {
  }

  /** The walk stops for a reason that lies in the links. */
  lemma {:induction false} WalkEnds(bundles: Bundles, name: string, before: seq<string>, seen: set<string>, cur: string)
    returns (path: seq<string>)
    requires Path(bundles, name, before) && cur == Next(bundles, name, before) && Passed(seen, before)
    ensures Path(bundles, name, path) && EndsAs(bundles, name, path, EndOf(Walk(bundles, cur, seen)))
    ensures Walk(bundles, cur, seen).Ok? ==> path == before + Walk(bundles, cur, seen).value
    decreases |bundles.Keys - seen|
  {
    hide Path, EndsAs, Walk, Passed;
    if Defined(bundles, cur) && cur !in seen {
      assert cur in bundles.Keys - seen;
      SubsetSize(bundles.Keys - (seen + {cur}), bundles.Keys - seen);
      PathGrows(bundles, name, before);
      var up := bundles[cur].value.base;
      WalkUp(bundles, cur, seen);
      PassedOne(seen, before, cur);
      path := WalkEnds(bundles, name, before + [cur], seen + {cur}, up);
      var rest := Walk(bundles, up, seen + {cur});
      if rest.Ok? {
        AppendAgain(before, [cur], rest.value);
        assert Walk(bundles, cur, seen).value == [cur] + rest.value;
      }
    } else {
      path := before;
      WalkStops(bundles, name, before, seen, cur);
      assert before + [] == before;
    }
  }

  lemma WalkStops(bundles: Bundles, name: string, before: seq<string>, seen: set<string>, cur: string)
    requires Path(bundles, name, before) && cur == Next(bundles, name, before) && Passed(seen, before)
    requires !Defined(bundles, cur) || cur in seen
    ensures EndsAs(bundles, name, before, EndOf(Walk(bundles, cur, seen)))
    ensures Walk(bundles, cur, seen).Ok? ==> Walk(bundles, cur, seen).value == []
  {
  }

  lemma WalkUp(bundles: Bundles, cur: string, seen: set<string>)
    requires Defined(bundles, cur) && cur !in seen
    ensures var r := Walk(bundles, bundles[cur].value.base, seen + {cur});
            && EndOf(Walk(bundles, cur, seen)) == EndOf(r)
            && (r.Ok? ==> Walk(bundles, cur, seen) == Ok([cur] + r.value))
  {
  }

  lemma PathGrows(bundles: Bundles, name: string, path: seq<string>)
    requires Path(bundles, name, path) && Defined(bundles, Next(bundles, name, path))
    ensures var longer := path + [Next(bundles, name, path)];
            Path(bundles, name, longer) && Next(bundles, name, longer) == bundles[Next(bundles, name, path)].value.base
  {
  }

  /** No two paths end differently. */
  lemma OneEnd(bundles: Bundles, name: string, p: seq<string>, r: End, q: seq<string>, u: End)
    requires Path(bundles, name, p) && EndsAs(bundles, name, p, r)
    requires Path(bundles, name, q) && EndsAs(bundles, name, q, u)
    requires |p| <= |q|
    ensures r == u
  {
    Deterministic(bundles, name, p, q);
    if r.Loop? {
      Circles(bundles, name, p, q);
    }
  }

  /** Resolution fails exactly when the chain comes back to one of its own names, or
      leads to a name that is not there or has nothing behind it; otherwise the chain
      ends and the result is the base-first sum of its layers. */
  lemma ResolvesExactly(bundles: Bundles, name: string)
    ensures var r := Walk(bundles, name, {});
            && (r.Ok? <==> exists p :: Path(bundles, name, p) && Next(bundles, name, p) == "")
            && (r.Circular? <==> exists p :: Path(bundles, name, p) && Next(bundles, name, p) in p)
            && (r.Missing? <==> exists p :: Path(bundles, name, p) && Next(bundles, name, p) != "" && Next(bundles, name, p) !in bundles)
            && (r.Crash? <==> exists p :: Path(bundles, name, p) && Hollow(bundles, Next(bundles, name, p)))
            && (r.Ok? ==> Path(bundles, name, r.value) && Next(bundles, name, r.value) == "")
  {
    var r := Walk(bundles, name, {});
    var path := WalkEnds(bundles, name, [], {}, name);
    forall p, e | Path(bundles, name, p) && EndsAs(bundles, name, p, e)
      ensures EndOf(r) == e
    {
      if |p| <= |path| {
        OneEnd(bundles, name, p, e, path, EndOf(r));
      } else {
        OneEnd(bundles, name, path, EndOf(r), p, e);
      }
    }
    if p :| Path(bundles, name, p) && Next(bundles, name, p) == "" {
      assert EndsAs(bundles, name, p, Complete);
    }
    if p :| Path(bundles, name, p) && Next(bundles, name, p) in p {
      assert EndsAs(bundles, name, p, Loop);
    }
    if p :| Path(bundles, name, p) && Next(bundles, name, p) != "" && Next(bundles, name, p) !in bundles {
      assert EndsAs(bundles, name, p, NoSuch(Next(bundles, name, p)));
    }
    if p :| Path(bundles, name, p) && Hollow(bundles, Next(bundles, name, p)) {
      assert EndsAs(bundles, name, p, Empty(Next(bundles, name, p)));
    }
    assert [] + (if r.Ok? then r.value else []) == if r.Ok? then r.value else [];
  }

  /** What a bundle extends comes before its own layer, in every list. */
  lemma {:induction false} BaseFirst(bundles: Bundles, own: seq<string>, above: seq<string>)
    requires AllDefined(bundles, own) && AllDefined(bundles, above)
    ensures AllDefined(bundles, own + above)
    ensures var all, base, layers := Flattened(bundles, own + above), Flattened(bundles, above), Flattened(bundles, own);
            && all.memory == base.memory + layers.memory && all.skills == base.skills + layers.skills
            && all.plugins == base.plugins + layers.plugins && all.mcp == base.mcp + layers.mcp
  {
    BothDefined(bundles, own, above);
    hide Flattened, AllDefined, Defined;
    if own == [] {
      assert own + above == above;
      NoLayers(bundles);
    } else {
      var rest, base := own[1..], Flattened(bundles, above);
      assert (own + above)[1..] == rest + above;
      BothDefined(bundles, own[..1], rest);
      assert own[..1] + rest == own;
      BaseFirst(bundles, rest, above);
      TopLayer(bundles, own);
      TopLayer(bundles, own + above);
      var layers, b := Flattened(bundles, rest), bundles[own[0]].value;
      AppendAgain(base.memory, layers.memory, b.memory);
      AppendAgain(base.skills, layers.skills, b.skills);
      AppendAgain(base.plugins, layers.plugins, b.plugins);
      AppendAgain(base.mcp, layers.mcp, b.mcp);
    }
  }

  lemma BothDefined(bundles: Bundles, a: seq<string>, b: seq<string>)
    ensures AllDefined(bundles, a + b) <==> AllDefined(bundles, a) && AllDefined(bundles, b)
  {
    hide Defined;
    assert forall i | 0 <= i < |a| :: (a + b)[i] == a[i];
    assert forall i | 0 <= i < |b| :: (a + b)[|a| + i] == b[i];
  }

  lemma NoLayers(bundles: Bundles)
    ensures Flattened(bundles, []) == NO_LAYER
  {
  }

  lemma TopLayer(bundles: Bundles, chain: seq<string>)
    requires AllDefined(bundles, chain) && chain != []
    ensures AllDefined(bundles, chain[1..]) && Defined(bundles, chain[0])
    ensures Flattened(bundles, chain) == Extended(Flattened(bundles, chain[1..]), bundles[chain[0]].value)
  {
  }

  /** One layer is the bundle's own lists. */
  lemma OwnLayer(bundles: Bundles, name: string)
    requires Defined(bundles, name)
    ensures var b, r := bundles[name].value, Flattened(bundles, [name]);
            r.memory == b.memory && r.skills == b.skills && r.plugins == b.plugins && r.mcp == b.mcp
  {
    assert [name][1..] == [];
  }

  /** The flag of the most specific layer that has one. */
  lemma {:induction false} MostSpecificWins(bundles: Bundles, chain: seq<string>, k: nat)
    requires AllDefined(bundles, chain) && k <= |chain|
    requires forall i | 0 <= i < k :: bundles[chain[i]].value.strict.None?
    requires k < |chain| ==> bundles[chain[k]].value.strict.Some?
    ensures Flattened(bundles, chain).strict == if k < |chain| then bundles[chain[k]].value.strict.value else true
  {
    if chain != [] && k > 0 {
      MostSpecificWins(bundles, chain[1..], k - 1);
    }
  }

  // ------------------------------------------------------------------
  // The loops
  // ------------------------------------------------------------------

  method ResolveBundle(bundles: Bundles, name: string) returns (r: Outcome<Resolved>)
    ensures r == Resolve(bundles, name)
  {
    hide Flattened, Reversed, Defined;
    var seen: set<string>, chain: seq<string> := {}, [];
    var cur := name;
    NothingAhead(Walk(bundles, name, {}));
    while cur != ""
      invariant Walk(bundles, name, {}) == Ahead(chain, Walk(bundles, cur, seen))
      decreases |bundles.Keys - seen|
    {
      if cur in seen {
        return Circular;
      }
      if cur !in bundles {
        return Missing(cur);
      }
      if bundles[cur].None? {
        return Crash(cur);
      }
      assert cur in bundles.Keys - seen;
      SubsetSize(bundles.Keys - (seen + {cur}), bundles.Keys - seen);
      AheadMore(chain, cur, Walk(bundles, bundles[cur].value.base, seen + {cur}));
      seen := seen + {cur};
      chain := [cur] + chain;
      cur := bundles[cur].value.base;
    }
    assert Reversed(chain) + [] == Reversed(chain);
    var layers := Layers(bundles, chain);
    return Ok(layers);
  }

  /** Adds the layers up, base first. */
  method Layers(bundles: Bundles, chain: seq<string>) returns (out: Resolved)
    requires AllDefined(bundles, Reversed(chain))
    ensures out == Flattened(bundles, Reversed(chain))
  {
    out := NO_LAYER;
    for i := 0 to |chain|
      invariant AllDefined(bundles, Reversed(chain[..i])) && out == Flattened(bundles, Reversed(chain[..i]))
    {
      ReversedPrefix(bundles, chain, i);
      hide Reversed;
      var b := bundles[chain[i]].value;
      if b.strict.Some? {
        out := out.(strict := b.strict.value);
      }
      out := out.(memory := out.memory + b.memory);
      out := out.(skills := out.skills + b.skills);
      out := out.(plugins := out.plugins + b.plugins);
      out := out.(mcp := out.mcp + b.mcp);
    }
    assert chain[..|chain|] == chain;
  }

  lemma {:induction false} DefinedEitherWay(bundles: Bundles, s: seq<string>)
    ensures AllDefined(bundles, Reversed(s)) <==> AllDefined(bundles, s)
  {
    if s != [] {
      DefinedEitherWay(bundles, s[1..]);
      var r := Reversed(s[1..]);
      assert Reversed(s) == r + [s[0]] && s == [s[0]] + s[1..];
      assert forall i | 0 <= i < |r| :: Reversed(s)[i] == r[i];
      assert forall i | 0 <= i < |s[1..]| :: s[1..][i] == s[i + 1];
      assert Reversed(s)[|r|] == s[0];
      hide Defined;
    }
  }

  lemma ReversedPrefix(bundles: Bundles, chain: seq<string>, i: nat)
    requires AllDefined(bundles, Reversed(chain)) && i < |chain|
    ensures Reversed(chain[..i + 1]) == [chain[i]] + Reversed(chain[..i])
    ensures Defined(bundles, chain[i]) && AllDefined(bundles, Reversed(chain[..i + 1]))
    ensures ([chain[i]] + Reversed(chain[..i]))[1..] == Reversed(chain[..i])
  {
    hide AllDefined, Defined, Reversed;
    assert chain[..i + 1] == chain[..i] + [chain[i]];
    ReversedSnoc(chain[..i], chain[i]);
    DefinedEitherWay(bundles, chain);
    DefinedEitherWay(bundles, chain[..i + 1]);
    SomeDefined(bundles, chain, i);
  }

  lemma SomeDefined(bundles: Bundles, names: seq<string>, i: nat)
    requires AllDefined(bundles, names) && i < |names|
    ensures AllDefined(bundles, names[..i + 1]) && Defined(bundles, names[i])
  {
    hide Defined;
  }

  lemma NothingAhead(r: Outcome<seq<string>>)
    ensures Ahead([], r) == r
  {
    if r.Ok? {
      assert Reversed([]) + r.value == r.value;
    }
  }

  function Reversed(s: seq<string>): (r: seq<string>)
    ensures |r| == |s|
  {
    if s == [] then [] else Reversed(s[1..]) + [s[0]]
  }

  lemma {:induction false} ReversedSnoc(s: seq<string>, x: string)
    ensures Reversed(s + [x]) == [x] + Reversed(s)
  {
    if s == [] {
      assert s + [x] == [x];
    } else {
      ReversedSnoc(s[1..], x);
      assert (s + [x])[1..] == s[1..] + [x];
    }
  }

  /** The rest of a walk behind the names collected so far, base first. */
  function Ahead(chain: seq<string>, r: Outcome<seq<string>>): Outcome<seq<string>> {
    if r.Ok? then Ok(Reversed(chain) + r.value) else r
  }

  lemma AheadMore(chain: seq<string>, cur: string, r: Outcome<seq<string>>)
    ensures Ahead([cur] + chain, r) == Ahead(chain, if r.Ok? then Ok([cur] + r.value) else r)
  {
    assert ([cur] + chain)[1..] == chain;
    if r.Ok? {
      assert Reversed(chain) + [cur] + r.value == Reversed(chain) + ([cur] + r.value);
    }
  }
}
