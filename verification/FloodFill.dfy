/** Connected-component labelling of a boolean raster, `_label_components` in
    `geospatial/local/ndvi_change_detection.py`, and the area filter over its result. */
module FloodFill {
  import opened Sequences

  datatype Pixel = Pixel(r: int, c: int)

  // ---------------------------------------------------------------------------
  // Connectivity
  // ---------------------------------------------------------------------------

  predicate Adjacent(p: Pixel, q: Pixel) {
    (p.c == q.c && (p.r == q.r + 1 || q.r == p.r + 1)) || (p.r == q.r && (p.c == q.c + 1 || q.c == p.c + 1))
  }

  ghost predicate IsPath(s: set<Pixel>, path: seq<Pixel>, p: Pixel, q: Pixel) {
    && path != [] && path[0] == p && path[|path| - 1] == q
    && (forall i :: 0 <= i < |path| ==> path[i] in s)
    && (forall i :: 0 < i < |path| ==> Adjacent(path[i - 1], path[i]))
  }

  /** A path of 4-neighbours inside the mask joins `p` and `q`. */
  ghost predicate Connected(s: set<Pixel>, p: Pixel, q: Pixel) {
    exists path :: IsPath(s, path, p, q)
  }

  ghost function Reach(s: set<Pixel>, p: Pixel): set<Pixel> {
    set q | q in s && Connected(s, p, q)
  }

  /** Nothing outside `v` is next to anything in it. */
  ghost predicate Closed(s: set<Pixel>, v: set<Pixel>) {
    forall p, q :: p in v && q in s && Adjacent(p, q) ==> q in v
  }

  lemma {:induction false} ConnectedSelf(s: set<Pixel>, p: Pixel)
    requires p in s
    ensures Connected(s, p, p)
  {
    assert IsPath(s, [p], p, p);
  }

  lemma {:induction false} ConnectedStep(s: set<Pixel>, p: Pixel, q: Pixel, next: Pixel)
    requires Connected(s, p, q) && next in s && Adjacent(q, next)
    ensures Connected(s, p, next)
  {
    var path :| IsPath(s, path, p, q);
    assert IsPath(s, path + [next], p, next);
  }

  lemma {:induction false} ConnectedSym(s: set<Pixel>, p: Pixel, q: Pixel)
    requires Connected(s, p, q)
    ensures Connected(s, q, p)
  {
    var path :| IsPath(s, path, p, q);
    var back := seq(|path|, i requires 0 <= i < |path| => path[|path| - 1 - i]);
    forall i | 0 < i < |back| ensures Adjacent(back[i - 1], back[i]) {
      assert Adjacent(path[|path| - 1 - i], path[|path| - i]);
    }
    assert IsPath(s, back, q, p);
  }

  lemma {:induction false} ConnectedTrans(s: set<Pixel>, p: Pixel, q: Pixel, z: Pixel)
    requires Connected(s, p, q) && Connected(s, q, z)
    ensures Connected(s, p, z)
  {
    var a :| IsPath(s, a, p, q);
    var b :| IsPath(s, b, q, z);
    var joined := a + b[1..];
    forall i | 0 < i < |joined| ensures Adjacent(joined[i - 1], joined[i]) {
      if i >= |a| { assert Adjacent(b[i - |a|], b[i - |a| + 1]); }
    }
    assert IsPath(s, joined, p, z);
  }

  /** A path that starts in a closed set stays in it. */
  lemma {:induction false} PathStays(s: set<Pixel>, v: set<Pixel>, path: seq<Pixel>, p: Pixel, q: Pixel)
    requires Closed(s, v) && p in v && IsPath(s, path, p, q)
    ensures q in v
    decreases |path|
  {
    if |path| > 1 {
      var n := |path| - 1;
      PathStays(s, v, path[..n], p, path[n - 1]);
    }
  }

  lemma {:induction false} ReachWithin(s: set<Pixel>, v: set<Pixel>, p: Pixel)
    requires Closed(s, v) && p in v
    ensures Reach(s, p) <= v
  {
    forall q | q in Reach(s, p) ensures q in v {
      var path :| IsPath(s, path, p, q);
      PathStays(s, v, path, p, q);
    }
  }

  lemma {:induction false} ReachAvoids(s: set<Pixel>, v: set<Pixel>, p: Pixel)
    requires Closed(s, v) && p in s && p !in v
    ensures Reach(s, p) !! v
  {
    forall q | q in Reach(s, p) ensures q !in v {
      ConnectedSym(s, p, q);
      var path :| IsPath(s, path, q, p);
      if q in v { PathStays(s, v, path, q, p); }
    }
  }

  lemma {:induction false} ReachSame(s: set<Pixel>, p: Pixel, q: Pixel)
    requires q in Reach(s, p)
    ensures Reach(s, p) == Reach(s, q)
  {
    ConnectedSym(s, p, q);
    forall z | z in s ensures z in Reach(s, p) <==> z in Reach(s, q) {
      if Connected(s, p, z) { ConnectedTrans(s, q, p, z); }
      if Connected(s, q, z) { ConnectedTrans(s, p, q, z); }
    }
  }

  // ---------------------------------------------------------------------------
  // Labelling
  // ---------------------------------------------------------------------------

  ghost function Elements(pixels: seq<Pixel>): set<Pixel> {
    set p | p in pixels
  }

  ghost predicate Distinct(pixels: seq<Pixel>) {
    forall i, k :: 0 <= i < k < |pixels| ==> pixels[i] != pixels[k]
  }

  ghost predicate IsComponent(s: set<Pixel>, component: seq<Pixel>) {
    component != [] && Distinct(component) && component[0] in s && Elements(component) == Reach(s, component[0])
  }

  ghost predicate Apart(a: seq<Pixel>, b: seq<Pixel>) {
    forall p :: p in a ==> p !in b
  }

  /** Whole components, no two the same. */
  ghost predicate Labelled(s: set<Pixel>, components: seq<seq<Pixel>>) {
    && (forall i :: 0 <= i < |components| ==> IsComponent(s, components[i]))
    && (forall i, k :: 0 <= i < k < |components| ==> Apart(components[i], components[k]))
  }

  ghost predicate Covered(components: seq<seq<Pixel>>, p: Pixel) {
    exists i :: 0 <= i < |components| && p in components[i]
  }

  predicate InRaster(mask: array2<bool>, p: Pixel) {
    0 <= p.r < mask.Length0 && 0 <= p.c < mask.Length1
  }

  ghost function Trues(mask: array2<bool>): set<Pixel>
    reads mask
  {
    set r: int, c: int | 0 <= r < mask.Length0 && 0 <= c < mask.Length1 && mask[r, c] :: Pixel(r, c)
  }

  /** The `visited` raster is the set `seen`. */
  ghost predicate Marks(visited: array2<bool>, seen: set<Pixel>)
    reads visited
  {
    forall r: int, c: int :: 0 <= r < visited.Length0 && 0 <= c < visited.Length1 ==> (visited[r, c] <==> Pixel(r, c) in seen)
  }

  /** The state of one fill: what it has finished, what is still on its stack, and what was seen before. */
  ghost predicate Filling(s: set<Pixel>, before: set<Pixel>, seed: Pixel, component: seq<Pixel>, stack: seq<Pixel>) {
    && Distinct(component + stack)
    && (forall p :: p in component + stack ==> p in s && p !in before && Connected(s, seed, p))
  }

  /** Pixel `p`'s neighbours are all among `pixels`. */
  ghost predicate Expanded(s: set<Pixel>, p: Pixel, pixels: seq<Pixel>) {
    forall q :: q in s && Adjacent(p, q) ==> q in pixels
  }

  lemma {:induction false} PushKeeps(s: set<Pixel>, before: set<Pixel>, seed: Pixel, component: seq<Pixel>, stack: seq<Pixel>, p: Pixel, q: Pixel)
    requires Filling(s, before, seed, component, stack) && p in component && q in s && Adjacent(p, q)
    requires q !in before && q !in component + stack
    ensures Filling(s, before, seed, component, stack + [q])
    ensures Elements(component + (stack + [q])) == Elements(component + stack) + {q}
  {
    ConnectedStep(s, seed, p, q);
    assert component + (stack + [q]) == (component + stack) + [q];
    var all := component + stack;
    assert forall x :: x in all + [q] <==> x in all || x == q;
  }

  /** All the pixels a fill has marked so far, and those marked before it. */
  ghost function Seen(before: set<Pixel>, component: seq<Pixel>, stack: seq<Pixel>): set<Pixel> {
    before + Elements(component + stack)
  }

  /** How far a fill is from having marked everything. */
  ghost function Unseen(s: set<Pixel>, before: set<Pixel>, component: seq<Pixel>, stack: seq<Pixel>): nat {
    |s - Seen(before, component, stack)|
  }

  lemma {:induction false} PopKeeps(s: set<Pixel>, before: set<Pixel>, seed: Pixel, component: seq<Pixel>, stack: seq<Pixel>)
    requires Filling(s, before, seed, component, stack) && stack != []
    ensures var n := |stack| - 1;
      Filling(s, before, seed, component + [stack[n]], stack[..n])
      && Elements((component + [stack[n]]) + stack[..n]) == Elements(component + stack)
      && Seen(before, component + [stack[n]], stack[..n]) == Seen(before, component, stack)
  {
    var n := |stack| - 1;
    var all, all' := component + stack, (component + [stack[n]]) + stack[..n];
    var m := |component|;
    assert all'[m] == all[|all| - 1];
    assert forall i :: 0 <= i < m ==> all'[i] == all[i];
    assert forall i :: m < i < |all'| ==> all'[i] == all[i - 1];
    assert forall p :: p in all' ==> p in all;
    forall p | p in all ensures p in all' {
      var i :| 0 <= i < |all| && all[i] == p;
      var at := if i < m then i else if i == |all| - 1 then m else i + 1;
      assert all'[at] == p;
    }
  }

  /** Pushes neighbour `q` of `p` if it is a true pixel not visited yet. */
  method Visit(
      mask: array2<bool>, visited: array2<bool>, p: Pixel, q: Pixel, stack: seq<Pixel>,
      ghost before: set<Pixel>, ghost seed: Pixel, ghost component: seq<Pixel>)
    returns (stack': seq<Pixel>)
    requires visited != mask && visited.Length0 == mask.Length0 && visited.Length1 == mask.Length1
    requires p in component && Adjacent(p, q) && Filling(Trues(mask), before, seed, component, stack)
    requires Marks(visited, Seen(before, component, stack))
    modifies visited
    ensures Filling(Trues(mask), before, seed, component, stack') && Marks(visited, Seen(before, component, stack'))
    ensures stack' == stack || stack' == stack + [q]
    ensures Seen(before, component, stack') == Seen(before, component, stack) + (if q in Trues(mask) then {q} else {})
    ensures |stack'| > |stack| ==> q in Trues(mask) && q !in Seen(before, component, stack)
  {
    stack' := stack;
    ghost var seen := Seen(before, component, stack);
    if InRaster(mask, q) && mask[q.r, q.c] && !visited[q.r, q.c] {
      assert q in Trues(mask) && q !in seen;
      PushKeeps(Trues(mask), before, seed, component, stack, p, q);
      hide Filling, Trues;
      visited[q.r, q.c] := true;
      stack' := stack + [q];
      assert Seen(before, component, stack') == seen + {q};
    } else {
      assert q in Trues(mask) ==> q in seen;
    }
  }

  /** Pushes the unvisited neighbours of `p`, in the order up, down, left, right. */
  method PushNeighbours(
      mask: array2<bool>, visited: array2<bool>, p: Pixel, stack: seq<Pixel>,
      ghost before: set<Pixel>, ghost seed: Pixel, ghost component: seq<Pixel>)
    returns (stack': seq<Pixel>)
    requires visited != mask && visited.Length0 == mask.Length0 && visited.Length1 == mask.Length1
    requires p in component && Filling(Trues(mask), before, seed, component, stack)
    requires Marks(visited, Seen(before, component, stack)) && Closed(Trues(mask), before)
    modifies visited
    ensures Filling(Trues(mask), before, seed, component, stack') && Marks(visited, Seen(before, component, stack'))
    ensures Expanded(Trues(mask), p, component + stack')
    ensures Seen(before, component, stack) <= Seen(before, component, stack')
    ensures |stack'| > |stack| ==> Unseen(Trues(mask), before, component, stack') < Unseen(Trues(mask), before, component, stack)
    ensures |stack'| >= |stack| && Unseen(Trues(mask), before, component, stack') <= Unseen(Trues(mask), before, component, stack)
  {
    ghost var s := Trues(mask);
    ghost var seen := Seen(before, component, stack);
    var next := [Pixel(p.r - 1, p.c), Pixel(p.r + 1, p.c), Pixel(p.r, p.c - 1), Pixel(p.r, p.c + 1)];
    stack' := stack;
    hide Filling, Marks, Trues;
    for k := 0 to 4
      invariant Filling(s, before, seed, component, stack') && Marks(visited, Seen(before, component, stack'))
      invariant s == Trues(mask) && |stack'| >= |stack|
      invariant seen <= Seen(before, component, stack')
      invariant forall j :: 0 <= j < k && next[j] in s ==> next[j] in Seen(before, component, stack')
      invariant |stack'| > |stack| ==> exists q :: q in s && q !in seen && q in Seen(before, component, stack')
    {
      ghost var was := stack';
      stack' := Visit(mask, visited, p, next[k], stack', before, seed, component);
    }
    NeighboursSeen(s, before, seed, component, stack', p, next);
    SubsetSize(s - Seen(before, component, stack'), s - seen);
    if |stack'| > |stack| {
      ghost var q :| q in s && q !in seen && q in Seen(before, component, stack');
      SeenMore(s, seen, Seen(before, component, stack'), q);
    }
  }

  lemma {:induction false} SeenMore(s: set<Pixel>, seen: set<Pixel>, seen': set<Pixel>, q: Pixel)
    requires seen <= seen' && q in s && q !in seen && q in seen'
    ensures |s - seen'| < |s - seen|
  {
    assert s - seen' <= (s - seen) - {q};
    SubsetSize(s - seen', (s - seen) - {q});
  }

  lemma {:induction false} NeighboursSeen(
      s: set<Pixel>, before: set<Pixel>, seed: Pixel, component: seq<Pixel>, stack: seq<Pixel>, p: Pixel, next: seq<Pixel>)
    requires Filling(s, before, seed, component, stack) && Closed(s, before) && p in component
    requires next == [Pixel(p.r - 1, p.c), Pixel(p.r + 1, p.c), Pixel(p.r, p.c - 1), Pixel(p.r, p.c + 1)]
    requires forall j :: 0 <= j < 4 && next[j] in s ==> next[j] in Seen(before, component, stack)
    ensures Expanded(s, p, component + stack)
  {
    assert p in component + stack;
    forall q | q in s && Adjacent(p, q) ensures q in component + stack {
      assert q == next[0] || q == next[1] || q == next[2] || q == next[3];
      assert Adjacent(q, p);
    }
  }

  /** One turn of the fill: the top of the stack joins the component, its neighbours the stack. */
  method FillStep(
      mask: array2<bool>, visited: array2<bool>, component: seq<Pixel>, stack: seq<Pixel>,
      ghost before: set<Pixel>, ghost seed: Pixel)
    returns (component': seq<Pixel>, stack': seq<Pixel>)
    requires visited != mask && visited.Length0 == mask.Length0 && visited.Length1 == mask.Length1
    requires stack != [] && Filling(Trues(mask), before, seed, component, stack) && Closed(Trues(mask), before)
    requires Marks(visited, Seen(before, component, stack))
    requires forall p :: p in component ==> Expanded(Trues(mask), p, component + stack)
    modifies visited
    ensures component' == component + [stack[|stack| - 1]]
    ensures Filling(Trues(mask), before, seed, component', stack') && Marks(visited, Seen(before, component', stack'))
    ensures forall p :: p in component' ==> Expanded(Trues(mask), p, component' + stack')
    ensures var s := Trues(mask);
      Unseen(s, before, component', stack') < Unseen(s, before, component, stack) ||
      (Unseen(s, before, component', stack') == Unseen(s, before, component, stack) && |stack'| < |stack|)
  {
    ghost var s := Trues(mask);
    PopKeeps(s, before, seed, component, stack);
    hide Marks, Trues, Filling, Closed, Distinct, Expanded, Seen, Elements;
    var p := stack[|stack| - 1];
    component' := component + [p];
    stack' := PushNeighbours(mask, visited, p, stack[..|stack| - 1], before, seed, component');
    ExpandedStays(s, before, seed, component, stack, component', stack[..|stack| - 1], stack');
  }

  /** Flood fill from `seed`: the component is everything that can be reached from it. */
  method Fill(mask: array2<bool>, visited: array2<bool>, seed: Pixel, ghost before: set<Pixel>) returns (component: seq<Pixel>)
    requires visited != mask && visited.Length0 == mask.Length0 && visited.Length1 == mask.Length1
    requires InRaster(mask, seed) && mask[seed.r, seed.c] && seed !in before
    requires Marks(visited, before) && Closed(Trues(mask), before)
    modifies visited
    ensures IsComponent(Trues(mask), component) && component[0] == seed
    ensures Marks(visited, before + Elements(component))
  {
    ghost var s := Trues(mask);
    var stack := [seed];
    visited[seed.r, seed.c] := true;
    component := [];
    FillStarts(s, before, seed);
    hide Marks, Trues, Filling, Closed, Distinct, Expanded, Seen, Elements, Unseen;
    while stack != []
      invariant s == Trues(mask) && Filling(s, before, seed, component, stack)
      invariant Marks(visited, Seen(before, component, stack))
      invariant forall p :: p in component ==> Expanded(s, p, component + stack)
      invariant if component == [] then stack == [seed] else component[0] == seed
      decreases Unseen(s, before, component, stack), |stack|
    {
      component, stack := FillStep(mask, visited, component, stack, before, seed);
    }
    assert component + [] == component;
    FillEnds(s, before, seed, component);
    IsComponentNow(s, component, seed);
  }

  lemma {:induction false} ExpandedStays(
      s: set<Pixel>, before: set<Pixel>, seed: Pixel,
      component0: seq<Pixel>, stack0: seq<Pixel>, component: seq<Pixel>, popped: seq<Pixel>, stack: seq<Pixel>)
    requires Filling(s, before, seed, component0, stack0)
    requires forall p :: p in component0 ==> Expanded(s, p, component0 + stack0)
    requires Elements(component + popped) == Elements(component0 + stack0)
    requires Seen(before, component, popped) <= Seen(before, component, stack)
    ensures forall p :: p in component0 ==> Expanded(s, p, component + stack)
  {
    forall q | q in component0 + stack0 ensures q in component + stack {
      assert q in Elements(component0 + stack0);
      assert q in Seen(before, component, stack);
    }
  }

  lemma {:induction false} FillEnds(s: set<Pixel>, before: set<Pixel>, seed: Pixel, component: seq<Pixel>)
    requires Filling(s, before, seed, component, []) && seed in component
    requires forall p :: p in component ==> Expanded(s, p, component)
    ensures Distinct(component) && Elements(component) == Reach(s, seed)
    ensures Seen(before, component, []) == before + Elements(component)
  {
    assert component + [] == component;
    assert Closed(s, Elements(component));
    ReachWithin(s, Elements(component), seed);
  }

  lemma {:induction false} IsComponentNow(s: set<Pixel>, component: seq<Pixel>, seed: Pixel)
    requires component != [] && component[0] == seed && Distinct(component) && Elements(component) == Reach(s, seed)
    ensures IsComponent(s, component)
  {
    assert component[0] in Elements(component);
  }

  lemma {:induction false} FillStarts(s: set<Pixel>, before: set<Pixel>, seed: Pixel)
    requires seed in s && seed !in before
    ensures Filling(s, before, seed, [], [seed]) && Seen(before, [], [seed]) == before + {seed}
  {
    ConnectedSelf(s, seed);
    assert [] + [seed] == [seed];
  }

  /** Every pixel seen is in a component and the other way round. */
  ghost predicate SeenAre(components: seq<seq<Pixel>>, seen: set<Pixel>) {
    forall p :: p in seen <==> Covered(components, p)
  }

  lemma {:induction false} AddComponent(s: set<Pixel>, components: seq<seq<Pixel>>, seen: set<Pixel>, component: seq<Pixel>)
    requires Labelled(s, components) && SeenAre(components, seen) && Closed(s, seen)
    requires IsComponent(s, component) && component[0] !in seen
    ensures Labelled(s, components + [component]) && SeenAre(components + [component], seen + Elements(component))
    ensures Closed(s, seen + Elements(component))
  {
    ReachAvoids(s, seen, component[0]);
    var all := components + [component];
    forall i | 0 <= i < |components| ensures Apart(all[i], component) {
      forall p | p in all[i] ensures p !in component {
        assert Covered(components, p);
        assert p in component ==> p in Elements(component);
      }
    }
    forall p ensures p in seen + Elements(component) <==> Covered(all, p) {
      if p in seen {
        var i :| 0 <= i < |components| && p in components[i];
        assert p in all[i];
      }
      assert p in component <==> p in all[|components|];
    }
    forall p, q | p in Elements(component) && q in s && Adjacent(p, q) ensures q in Elements(component) {
      ConnectedStep(s, component[0], p, q);
    }
  }

  /** Scans the raster row by row and fills from every true pixel not visited yet. */
  method LabelComponents(mask: array2<bool>) returns (components: seq<seq<Pixel>>)
    ensures Labelled(Trues(mask), components)
    ensures forall p :: p in Trues(mask) ==> Covered(components, p)
  {
    ghost var s := Trues(mask);
    var visited := new bool[mask.Length0, mask.Length1]((_, _) => false);
    components := [];
    ghost var seen: set<Pixel> := {};
    for r := 0 to mask.Length0
      invariant s == Trues(mask) && Marks(visited, seen)
      invariant Labelled(s, components) && SeenAre(components, seen) && Closed(s, seen)
      invariant forall i: int, k: int :: 0 <= i < r && Pixel(i, k) in s ==> Pixel(i, k) in seen
    {
      for c := 0 to mask.Length1
        invariant s == Trues(mask) && Marks(visited, seen)
        invariant Labelled(s, components) && SeenAre(components, seen) && Closed(s, seen)
        invariant forall i: int, k: int :: (0 <= i < r || (i == r && 0 <= k < c)) && Pixel(i, k) in s ==> Pixel(i, k) in seen
      {
        hide Closed, Labelled, SeenAre, IsComponent;
        if !mask[r, c] || visited[r, c] {
          continue;
        }
        var component := Fill(mask, visited, Pixel(r, c), seen);
        AddComponent(s, components, seen, component);
        components := components + [component];
        seen := seen + Elements(component);
        assert Pixel(r, c) in seen by { assert component[0] in component; }
      }
    }
    assert forall p :: p in s ==> Pixel(p.r, p.c) in seen;
  }

  // ---------------------------------------------------------------------------
  // What a labelling means
  // ---------------------------------------------------------------------------

  /** Two true pixels are in one component if and only if a path of true pixels joins them. */
  lemma {:induction false} SameComponentIffConnected(s: set<Pixel>, components: seq<seq<Pixel>>, p: Pixel, q: Pixel)
    requires Labelled(s, components) && Covered(components, p) && q in s
    ensures (exists i :: 0 <= i < |components| && p in components[i] && q in components[i]) <==> Connected(s, p, q)
  {
    var k :| 0 <= k < |components| && p in components[k];
    assert IsComponent(s, components[k]);
    assert p in Elements(components[k]);
    ReachSame(s, components[k][0], p);
    assert q in components[k] <==> q in Elements(components[k]);
    assert forall i :: 0 <= i < |components| && p in components[i] ==> i == k by {
      forall i | 0 <= i < |components| && p in components[i] ensures i == k {
        assert i < k ==> Apart(components[i], components[k]);
        assert k < i ==> Apart(components[k], components[i]);
      }
    }
  }

  function TotalSize(components: seq<seq<Pixel>>): nat {
    if components == [] then 0 else TotalSize(components[..|components| - 1]) + |components[|components| - 1]|
  }

  lemma {:induction false} DistinctSize(pixels: seq<Pixel>)
    requires Distinct(pixels)
    ensures |Elements(pixels)| == |pixels|
    decreases |pixels|
  {
    if pixels != [] {
      var n := |pixels| - 1;
      DistinctSize(pixels[..n]);
      assert Elements(pixels) == Elements(pixels[..n]) + {pixels[n]};
    }
  }

  ghost function Union(components: seq<seq<Pixel>>): set<Pixel> {
    if components == [] then {} else Union(components[..|components| - 1]) + Elements(components[|components| - 1])
  }

  lemma {:induction false} UnionIs(components: seq<seq<Pixel>>, p: Pixel)
    ensures p in Union(components) <==> Covered(components, p)
    decreases |components|
  {
    if components != [] {
      var n := |components| - 1;
      UnionIs(components[..n], p);
      if Covered(components[..n], p) {
        var i :| 0 <= i < n && p in components[..n][i];
        assert p in components[i];
      }
      if Covered(components, p) && p !in components[n] {
        var i :| 0 <= i < |components| && p in components[i];
        assert p in components[..n][i];
      }
    }
  }

  lemma {:induction false} UnionSize(s: set<Pixel>, components: seq<seq<Pixel>>)
    requires Labelled(s, components)
    ensures |Union(components)| == TotalSize(components)
    decreases |components|
  {
    if components != [] {
      var n := |components| - 1;
      var before, last := components[..n], components[n];
      assert IsComponent(s, last);
      assert forall i :: 0 <= i < n ==> IsComponent(s, before[i]) && Apart(components[i], last) && before[i] == components[i];
      assert Labelled(s, before);
      UnionSize(s, before);
      DistinctSize(last);
      forall p | p in Union(before) ensures p !in Elements(last) {
        UnionIs(before, p);
        var i :| 0 <= i < n && p in before[i];
        assert Apart(components[i], last);
      }
    }
  }

  /** The components partition the true pixels: their sizes sum to the number of true pixels. */
  lemma {:induction false} SizesSumToTrues(s: set<Pixel>, components: seq<seq<Pixel>>)
    requires Labelled(s, components) && forall p :: p in s ==> Covered(components, p)
    ensures TotalSize(components) == |s|
  {
    UnionSize(s, components);
    forall p ensures p in Union(components) <==> p in s {
      UnionIs(components, p);
      if Covered(components, p) {
        var i :| 0 <= i < |components| && p in components[i];
        assert IsComponent(s, components[i]) && p in Elements(components[i]);
      }
    }
    assert Union(components) == s;
  }

  // ---------------------------------------------------------------------------
  // Area filter
  // ---------------------------------------------------------------------------

  function LargeEnough(components: seq<seq<Pixel>>, pixelArea: real, minArea: real): seq<seq<Pixel>> {
    if components == [] then []
    else
      var n := |components| - 1;
      var before := LargeEnough(components[..n], pixelArea, minArea);
      if |components[n]| as real * pixelArea < minArea then before else before + [components[n]]
  }

  /** The components an alert is raised for. */
  method DetectDisturbances(mask: array2<bool>, pixelArea: real, minArea: real) returns (alerts: seq<seq<Pixel>>)
    ensures forall p :: p in Trues(mask) ==>
      (Covered(alerts, p) <==> |Reach(Trues(mask), p)| as real * pixelArea >= minArea)
    ensures forall p :: Covered(alerts, p) ==> p in Trues(mask)
  {
    var components := LabelComponents(mask);
    hide Labelled, Covered, Reach, Trues;
    alerts := [];
    for i := 0 to |components|
      invariant alerts == LargeEnough(components[..i], pixelArea, minArea)
    {
      assert components[..i + 1][..i] == components[..i];
      if |components[i]| as real * pixelArea < minArea {
        continue;
      }
      alerts := alerts + [components[i]];
    }
    assert components[..|components|] == components;
    AlertsAre(Trues(mask), components, pixelArea, minArea);
  }

  lemma {:induction false} AlertsAre(s: set<Pixel>, components: seq<seq<Pixel>>, pixelArea: real, minArea: real)
    requires Labelled(s, components) && forall p :: p in s ==> Covered(components, p)
    ensures forall p :: p in s ==>
      (Covered(LargeEnough(components, pixelArea, minArea), p) <==> |Reach(s, p)| as real * pixelArea >= minArea)
    ensures forall p :: Covered(LargeEnough(components, pixelArea, minArea), p) ==> p in s
  {
    forall p | p in s
      ensures Covered(LargeEnough(components, pixelArea, minArea), p) <==> |Reach(s, p)| as real * pixelArea >= minArea
    {
      ReportedIff(s, components, pixelArea, minArea, p);
    }
    forall p | Covered(LargeEnough(components, pixelArea, minArea), p) ensures p in s {
      KeptAre(components, pixelArea, minArea, p);
      var i :| 0 <= i < |components| && p in components[i];
      assert IsComponent(s, components[i]) && p in Elements(components[i]);
    }
  }

  predicate IsLarge(component: seq<Pixel>, pixelArea: real, minArea: real) {
    |component| as real * pixelArea >= minArea
  }

  ghost predicate LargeWith(components: seq<seq<Pixel>>, pixelArea: real, minArea: real, p: Pixel) {
    exists i :: 0 <= i < |components| && p in components[i] && IsLarge(components[i], pixelArea, minArea)
  }

  lemma {:induction false} CoveredAppend(components: seq<seq<Pixel>>, last: seq<Pixel>, p: Pixel)
    ensures Covered(components + [last], p) <==> Covered(components, p) || p in last
  {
    var all := components + [last];
    assert all[|components|] == last;
    if Covered(components, p) {
      var i :| 0 <= i < |components| && p in components[i];
      assert p in all[i];
    }
  }

  lemma {:induction false} LargeWithAppend(components: seq<seq<Pixel>>, last: seq<Pixel>, pixelArea: real, minArea: real, p: Pixel)
    ensures LargeWith(components + [last], pixelArea, minArea, p) <==>
      LargeWith(components, pixelArea, minArea, p) || (p in last && IsLarge(last, pixelArea, minArea))
  {
    hide IsLarge;
    var all := components + [last];
    assert all[|components|] == last;
    if LargeWith(components, pixelArea, minArea, p) {
      var i :| 0 <= i < |components| && p in components[i] && IsLarge(components[i], pixelArea, minArea);
      assert p in all[i] && IsLarge(all[i], pixelArea, minArea);
    }
  }

  lemma {:induction false} LargeEnoughStep(components: seq<seq<Pixel>>, pixelArea: real, minArea: real)
    requires components != []
    ensures var n := |components| - 1;
      var kept := LargeEnough(components[..n], pixelArea, minArea);
      LargeEnough(components, pixelArea, minArea) == if IsLarge(components[n], pixelArea, minArea) then kept + [components[n]] else kept
  {
  }

  lemma {:induction false} KeptAre(components: seq<seq<Pixel>>, pixelArea: real, minArea: real, p: Pixel)
    ensures Covered(LargeEnough(components, pixelArea, minArea), p) <==> LargeWith(components, pixelArea, minArea, p)
    decreases |components|
  {
    if components == [] {
      assert LargeEnough(components, pixelArea, minArea) == [];
    } else {
      var n := |components| - 1;
      LargeEnoughStep(components, pixelArea, minArea);
      hide LargeWith, Covered, LargeEnough, IsLarge;
      KeptAre(components[..n], pixelArea, minArea, p);
      assert components == components[..n] + [components[n]];
      CoveredAppend(LargeEnough(components[..n], pixelArea, minArea), components[n], p);
      LargeWithAppend(components[..n], components[n], pixelArea, minArea, p);
    }
  }

  /** A pixel is reported if and only if its whole connected patch is large enough. */
  lemma {:induction false} ReportedIff(s: set<Pixel>, components: seq<seq<Pixel>>, pixelArea: real, minArea: real, p: Pixel)
    requires Labelled(s, components) && p in s && Covered(components, p)
    ensures Covered(LargeEnough(components, pixelArea, minArea), p) <==> |Reach(s, p)| as real * pixelArea >= minArea
  {
    KeptAre(components, pixelArea, minArea, p);
    forall i | 0 <= i < |components| && p in components[i] ensures |components[i]| == |Reach(s, p)| {
      assert IsComponent(s, components[i]) && p in Elements(components[i]);
      ReachSame(s, components[i][0], p);
      DistinctSize(components[i]);
    }
    var k :| 0 <= k < |components| && p in components[k];
  }
}
