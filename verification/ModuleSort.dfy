/**
 The order in which scripts/zephyr_module.py puts modules: every module after the ones that
 it depends on.
 */
module ModuleSort {

  type Name = string

  /** A module with the names in its `build: depends:` list. */
  datatype Module = Module(name: Name, depends: seq<Name>)

  datatype Outcome = Sorted(names: seq<Name>) | Unresolved(names: seq<Name>)

  // ----- What can be sorted -----

  ghost predicate Distinct<T>(s: seq<T>) { forall i, j | 0 <= i < j < |s| :: s[i] != s[j] }

  function Names(ms: seq<Module>): seq<Name> { seq(|ms|, i requires 0 <= i < |ms| => ms[i].name) }

  /** `ms` lists a module `x` that depends on `y`. */
  ghost predicate DependsOn(ms: seq<Module>, x: Name, y: Name) {
    exists k :: 0 <= k < |ms| && ms[k].name == x && y in ms[k].depends
  }

  /** Modules that depend on each other in a ring. */
  ghost predicate IsCycle(ms: seq<Module>, c: seq<Name>) {
    && c != [] && (forall i | 0 <= i < |c| - 1 :: DependsOn(ms, c[i], c[i + 1]))
    && DependsOn(ms, c[|c| - 1], c[0])
  }

  /** Every dependency is listed once, is there, and leads nowhere back. */
  ghost predicate Resolvable(ms: seq<Module>) {
    && (forall k | 0 <= k < |ms| :: Distinct(ms[k].depends))
    && (forall k, d | 0 <= k < |ms| && d in ms[k].depends :: d in Names(ms))
    && forall c :: !IsCycle(ms, c)
  }

  /** All modules, each once and after everything that it depends on. */
  ghost predicate InOrder(ms: seq<Module>, names: seq<Name>) {
    && Distinct(names) && |names| == |ms| && (forall k | 0 <= k < |ms| :: ms[k].name in names)
    && forall i, j | 0 <= i < |ms| && 0 <= j < |names| && ms[i].name == names[j] :: forall d | d in ms[i].depends :: d in names[..j]
  }

  // ----- Dependencies left -----

  /** list.remove() of Python, of a name that may be missing. */
  function Remove(s: seq<Name>, x: Name): seq<Name> {
    if s == [] then [] else if s[0] == x then s[1..] else [s[0]] + Remove(s[1..], x)
  }

  /** The dependencies left once the modules in `done` were taken off, one after another. */
  function Left(depends: seq<Name>, done: seq<Name>): seq<Name> {
    if done == [] then depends else Remove(Left(depends, done[..|done| - 1]), done[|done| - 1])
  }

  lemma {:induction false} RemoveIs(s: seq<Name>, x: Name)
    ensures forall y :: y in s ==> y in Remove(s, x) || y == x
    ensures forall y :: y in Remove(s, x) ==> y in s
    ensures Distinct(s) ==> Distinct(Remove(s, x)) && x !in Remove(s, x)
    ensures x !in s ==> Remove(s, x) == s
    ensures x in s ==> |Remove(s, x)| == |s| - 1
    ensures !Distinct(s) && Remove(s, x) == [] ==> |s| == 1
  {
    if s != [] {
      RemoveIs(s[1..], x);
      assert s == [s[0]] + s[1..];
      assert Distinct(s) ==> s[0] !in s[1..] && Distinct(s[1..]);
    }
  }

  /** Nothing is left only if everything was taken off. */
  lemma {:induction false} NothingLeft(depends: seq<Name>, done: seq<Name>)
    ensures forall d | d in depends :: d in Left(depends, done) || d in done
    ensures forall d | d in Left(depends, done) :: d in depends
  {
    if done != [] {
      var n := |done| - 1;
      NothingLeft(depends, done[..n]);
      RemoveIs(Left(depends, done[..n]), done[n]);
    }
  }

  /** Without repetition, what is left was not taken off. */
  lemma {:induction false} LeftIsUndone(depends: seq<Name>, done: seq<Name>)
    requires Distinct(depends)
    ensures Distinct(Left(depends, done)) && forall d | d in Left(depends, done) :: d !in done
  {
    if done != [] {
      var n := |done| - 1;
      LeftIsUndone(depends, done[..n]);
      RemoveIs(Left(depends, done[..n]), done[n]);
      assert done == done[..n] + [done[n]];
    }
  }

  lemma Repeated(s: seq<Name>, i: nat, j: nat)
    requires i < j < |s| && s[i] == s[j]
    ensures multiset(s)[s[i]] >= 2
  {
    assert s == s[..i] + [s[i]] + s[i + 1..j] + [s[j]] + s[j + 1..];
  }

  lemma {:induction false} RemoveCount(s: seq<Name>, y: Name, x: Name)
    ensures multiset(Remove(s, y))[x] + (if x == y then 1 else 0) >= multiset(s)[x]
  {
    if s != [] {
      assert s == [s[0]] + s[1..];
      RemoveCount(s[1..], y, x);
    }
  }

  lemma {:induction false} LeftCount(depends: seq<Name>, done: seq<Name>, x: Name)
    requires Distinct(done)
    ensures multiset(Left(depends, done))[x] + (if x in done then 1 else 0) >= multiset(depends)[x]
  {
    if done != [] {
      var n := |done| - 1;
      assert done == done[..n] + [done[n]] && done[n] !in done[..n];
      LeftCount(depends, done[..n], x);
      RemoveCount(Left(depends, done[..n]), done[n], x);
    }
  }

  /** A repeated dependency is never taken off completely. */
  lemma {:induction false} RepeatedStays(depends: seq<Name>, done: seq<Name>)
    requires Distinct(done) && !Distinct(depends)
    ensures Left(depends, done) != []
  {
    var i, j :| 0 <= i < j < |depends| && depends[i] == depends[j];
    Repeated(depends, i, j);
    LeftCount(depends, done, depends[i]);
  }

  // ----- Cycles -----

  /** A dependency comes earlier. */
  lemma Place(ms: seq<Module>, names: seq<Name>, x: Name, y: Name) returns (p: (nat, nat))
    requires InOrder(ms, names) && DependsOn(ms, x, y)
    ensures p.0 < p.1 < |names| && names[p.0] == y && names[p.1] == x
  {
    var k :| 0 <= k < |ms| && ms[k].name == x && y in ms[k].depends;
    var j :| 0 <= j < |names| && names[j] == x;
    assert y in names[..j];
    var i :| 0 <= i < j && names[..j][i] == y;
    p := (i, j);
  }

  /** Along a cycle places go down by at least one each. */
  lemma {:induction false} Descends(ms: seq<Module>, names: seq<Name>, c: seq<Name>, i: nat, first: nat) returns (q: nat)
    requires InOrder(ms, names) && IsCycle(ms, c) && i < |c| && first < |names| && names[first] == c[0]
    ensures q + i <= first && q < |names| && names[q] == c[i]
  {
    if i == 0 {
      q := first;
    } else {
      var before := Descends(ms, names, c, i - 1, first);
      var p := Place(ms, names, c[i - 1], c[i]);
      assert p.1 == before;
      q := p.0;
    }
  }

  /** In an order there is no cycle. */
  lemma {:induction false} OrderHasNoCycle(ms: seq<Module>, names: seq<Name>, c: seq<Name>)
    requires InOrder(ms, names)
    ensures !IsCycle(ms, c)
  {
    if IsCycle(ms, c) {
      var p := Place(ms, names, c[|c| - 1], c[0]);
      var q := Descends(ms, names, c, |c| - 1, p.0);
      assert false;
    }
  }

  /** A module that depends on one of `r`. */
  ghost predicate Leads(ms: seq<Module>, r: set<Name>, x: Name) { exists y :: y in r && DependsOn(ms, x, y) }

  /** A walk along dependencies. */
  lemma {:induction false} Walk(ms: seq<Module>, r: set<Name>, x: Name, n: nat) returns (w: seq<Name>)
    requires x in r && n > 0 && forall x | x in r :: Leads(ms, r, x)
    ensures |w| == n && (forall i | 0 <= i < n :: w[i] in r) && forall i | 0 <= i < n - 1 :: DependsOn(ms, w[i], w[i + 1])
    decreases n
  {
    hide DependsOn;
    if n == 1 {
      w := [x];
    } else {
      var v := Walk(ms, r, x, n - 1);
      assert Leads(ms, r, v[n - 2]);
      var y :| y in r && DependsOn(ms, v[n - 2], y);
      w := v + [y];
      forall i | 0 <= i < n - 1 ensures DependsOn(ms, w[i], w[i + 1]) {
        if i < n - 2 {
          assert DependsOn(ms, v[i], v[i + 1]);
        }
      }
    }
  }

  /** More places than names: some name repeats. */
  lemma {:induction false} Repeats(w: seq<Name>, r: set<Name>) returns (i: nat, j: nat)
    requires |w| > |r| && forall k | 0 <= k < |w| :: w[k] in r
    ensures i < j < |w| && w[i] == w[j]
    decreases |w|
  {
    var n := |w| - 1;
    if w[n] in w[..n] {
      i :| 0 <= i < n && w[i] == w[n];
      j := n;
    } else {
      i, j := Repeats(w[..n], r - {w[n]});
    }
  }

  /** Where everybody depends on somebody there is a cycle. */
  lemma ClosedHasCycle(ms: seq<Module>, r: set<Name>) returns (c: seq<Name>)
    requires r != {} && forall x | x in r :: Leads(ms, r, x)
    ensures IsCycle(ms, c)
  {
    hide DependsOn, Leads;
    var x :| x in r;
    var w := Walk(ms, r, x, |r| + 1);
    var i, j := Repeats(w, r);
    c := w[i..j];
    forall k | 0 <= k < |c| - 1 ensures DependsOn(ms, c[k], c[k + 1]) {
      assert DependsOn(ms, w[i + k], w[i + k + 1]);
    }
    assert DependsOn(ms, w[j - 1], w[j - 1 + 1]);
  }

  // ----- Sorting -----

  /** The modules are told apart by name, like the keys of the dictionary they come from. */
  ghost predicate Named(ms: seq<Module>) { Distinct(Names(ms)) }

  /** What the lists of the loop hold: `start` the modules that can be next, `dep` those with
      dependencies `left`, `sorted` the others. */
  datatype Lists = Lists(start: seq<Name>, sorted: seq<Name>, dep: seq<Name>, left: map<Name, seq<Name>>)

  ghost predicate Apart(l: Lists) {
    && Distinct(l.start) && Distinct(l.sorted) && Distinct(l.dep)
    && (forall x | x in l.start :: x !in l.sorted && x !in l.dep) && (forall x | x in l.sorted :: x !in l.dep)
  }

  ghost predicate Listed(ms: seq<Module>, l: Lists) {
    && (forall x | x in l.start || x in l.sorted || x in l.dep :: x in Names(ms)) && forall x | x in l.dep :: x in l.left
  }

  /** A module that can be next has all its dependencies sorted; one of the others has
      exactly those left that are not. */
  ghost predicate ModuleKept(ms: seq<Module>, l: Lists, k: nat)
    requires k < |ms|
  {
    var m := ms[k];
    && (m.name in l.start || m.name in l.sorted || m.name in l.dep)
    && (m.name in l.start ==> Left(m.depends, l.sorted) == []) && (m.name in l.sorted ==> Distinct(m.depends))
    && (m.name in l.dep ==> m.name in l.left && l.left[m.name] == Left(m.depends, l.sorted) && l.left[m.name] != [])
  }

  /** The module at place `j` comes after everything that it depends on. */
  ghost predicate Placed(ms: seq<Module>, sorted: seq<Name>, j: nat)
    requires j < |sorted|
  {
    forall k, d | 0 <= k < |ms| && ms[k].name == sorted[j] && d in ms[k].depends :: d in sorted[..j]
  }

  ghost predicate Kept(ms: seq<Module>, l: Lists) {
    && Apart(l) && |l.start| + |l.sorted| + |l.dep| == |ms| && Listed(ms, l)
    && (forall k {:trigger ModuleKept(ms, l, k)} | 0 <= k < |ms| :: ModuleKept(ms, l, k))
    && (forall j | 0 <= j < |l.sorted| :: Placed(ms, l.sorted, j))
  }

  /** One turn of the loop: the first module is sorted, and those that it was the last
      dependency of can be next. */
  ghost predicate Turned(l: Lists, t: Lists, freed: seq<Name>) {
    && l.start != [] && t.start == l.start[1..] + freed && t.sorted == l.sorted + [l.start[0]]
    && (forall x | x in l.dep :: x in l.left && x in t.left && t.left[x] == Remove(l.left[x], l.start[0]))
    && Distinct(freed) && (forall x :: x in freed <==> x in l.dep && x in t.left && t.left[x] == [])
    && Distinct(t.dep) && (forall x :: x in t.dep <==> x in l.dep && x !in freed) && |t.dep| + |freed| == |l.dep|
  }

  lemma Joined(a: seq<Name>, b: seq<Name>)
    requires Distinct(a) && Distinct(b) && forall x | x in a :: x !in b
    ensures Distinct(a + b)
  {
    forall i, j | 0 <= i < j < |a + b| ensures (a + b)[i] != (a + b)[j] {
      if i < |a| <= j {
        assert a[i] in a && b[j - |a|] in b;
      }
    }
  }

  lemma TurnApart(l: Lists, t: Lists, freed: seq<Name>)
    requires Apart(l) && Turned(l, t, freed)
    ensures Apart(t) && |t.start| + |t.sorted| + |t.dep| == |l.start| + |l.sorted| + |l.dep|
  {
    hide Remove;
    assert l.start[0] in l.start && forall x | x in l.start[1..] :: x in l.start && x != l.start[0];
    assert Distinct(l.start[1..]);
    Joined(l.start[1..], freed);
    assert Distinct([l.start[0]]);
    Joined(l.sorted, [l.start[0]]);
  }

  lemma TurnModule(ms: seq<Module>, l: Lists, t: Lists, freed: seq<Name>, k: nat)
    requires Apart(l) && Turned(l, t, freed) && k < |ms| && ModuleKept(ms, l, k)
    ensures ModuleKept(ms, t, k)
  {
    hide Remove;
    var m, node := ms[k], l.start[0];
    assert t.sorted[..|t.sorted| - 1] == l.sorted && t.sorted[|t.sorted| - 1] == node;
    assert Left(m.depends, t.sorted) == Remove(Left(m.depends, l.sorted), node);
    RemoveIs(Left(m.depends, l.sorted), node);
    if m.name == node && !Distinct(m.depends) {
      RepeatedStays(m.depends, l.sorted);
    }
    assert m.name in l.start ==> m.name == node || m.name in l.start[1..];
  }

  lemma PlacedStill(ms: seq<Module>, sorted: seq<Name>, x: Name, j: nat)
    requires j < |sorted| && Placed(ms, sorted, j)
    ensures Placed(ms, sorted + [x], j)
  {
    assert (sorted + [x])[..j] == sorted[..j];
  }

  lemma PlacedIs(ms: seq<Module>, sorted: seq<Name>, j: nat)
    requires j < |sorted|
    requires forall k, d | 0 <= k < |ms| && ms[k].name == sorted[j] && d in ms[k].depends :: d in sorted[..j]
    ensures Placed(ms, sorted, j)
  {
  }

  lemma LastPlaced(ms: seq<Module>, l: Lists, node: Name)
    requires Kept(ms, l) && node in l.start
    ensures Placed(ms, l.sorted + [node], |l.sorted|)
  {
    hide Placed, Left;
    var s := l.sorted + [node];
    assert s[..|l.sorted|] == l.sorted;
    forall k, d | 0 <= k < |ms| && ms[k].name == node && d in ms[k].depends ensures d in s[..|l.sorted|] {
      assert ModuleKept(ms, l, k);
      NothingLeft(ms[k].depends, l.sorted);
    }
    PlacedIs(ms, s, |l.sorted|);
  }

  lemma TurnKeeps(ms: seq<Module>, l: Lists, t: Lists, freed: seq<Name>)
    requires Named(ms) && Kept(ms, l) && Turned(l, t, freed)
    ensures Kept(ms, t)
  {
    hide Left, Remove, ModuleKept, Placed;
    TurnApart(l, t, freed);
    forall k | 0 <= k < |ms| ensures ModuleKept(ms, t, k) {
      assert ModuleKept(ms, l, k);
      TurnModule(ms, l, t, freed, k);
    }
    forall j | 0 <= j < |t.sorted| ensures Placed(ms, t.sorted, j) {
      if j < |l.sorted| {
        assert Placed(ms, l.sorted, j);
        PlacedStill(ms, l.sorted, l.start[0], j);
      } else {
        LastPlaced(ms, l, l.start[0]);
      }
    }
  }

  /** With nothing left over the modules are in order and could be sorted. */
  lemma EmptyIsOrder(ms: seq<Module>, l: Lists)
    requires Named(ms) && Kept(ms, l) && l.start == [] && l.dep == []
    ensures InOrder(ms, l.sorted) && Resolvable(ms)
  {
    hide Left;
    forall k | 0 <= k < |ms| ensures ms[k].name in l.sorted {
      assert ModuleKept(ms, l, k);
    }
    forall i, j | 0 <= i < |ms| && 0 <= j < |l.sorted| && ms[i].name == l.sorted[j]
      ensures forall d | d in ms[i].depends :: d in l.sorted[..j]
    {
      assert Placed(ms, l.sorted, j);
    }
    forall c ensures !IsCycle(ms, c) {
      OrderHasNoCycle(ms, l.sorted, c);
    }
    forall k | 0 <= k < |ms|
      ensures Distinct(ms[k].depends) && forall d | d in ms[k].depends :: d in Names(ms)
    {
      assert ModuleKept(ms, l, k);
      var j :| 0 <= j < |l.sorted| && l.sorted[j] == ms[k].name;
      assert Placed(ms, l.sorted, j);
    }
  }

  lemma StuckLeads(ms: seq<Module>, l: Lists, r: set<Name>, x: Name)
    requires Kept(ms, l) && l.start == [] && Resolvable(ms) && x in l.dep && r == set y | y in l.dep
    ensures Leads(ms, r, x)
  {
    hide Left;
    assert x in Names(ms);
    var k :| 0 <= k < |ms| && ms[k].name == x;
    assert ModuleKept(ms, l, k);
    var d := l.left[x][0];
    assert d in Left(ms[k].depends, l.sorted);
    NothingLeft(ms[k].depends, l.sorted);
    LeftIsUndone(ms[k].depends, l.sorted);
    assert d in Names(ms);
    var i :| 0 <= i < |ms| && ms[i].name == d;
    assert ModuleKept(ms, l, i);
    assert d in r && DependsOn(ms, x, d);
  }

  /** With something left over there was no way to sort the modules. */
  lemma StuckIsUnresolvable(ms: seq<Module>, l: Lists)
    requires Named(ms) && Kept(ms, l) && l.start == [] && l.dep != []
    ensures !Resolvable(ms)
  {
    if Resolvable(ms) {
      var r := set x | x in l.dep;
      assert l.dep[0] in r;
      forall x | x in r ensures Leads(ms, r, x) {
        StuckLeads(ms, l, r, x);
      }
      var c := ClosedHasCycle(ms, r);
      assert false;
    }
  }

  // ----- scripts/zephyr_module.py -----

  /** The lists after the first `k` modules. */
  ghost predicate Classified(ms: seq<Module>, k: nat, l: Lists)
    requires k <= |ms|
  {
    && l.sorted == [] && Apart(l) && |l.start| + |l.dep| == k
    && (forall x :: x in l.start || x in l.dep <==> x in Names(ms)[..k]) && (forall x | x in l.dep :: x in l.left)
    && forall i | 0 <= i < k ::
      (ms[i].name in l.start <==> ms[i].depends == []) && (ms[i].name in l.dep ==> l.left[ms[i].name] == ms[i].depends)
  }

  lemma NoneClassified(ms: seq<Module>)
    ensures Classified(ms, 0, Lists([], [], [], map[]))
  {
  }

  lemma NewName(ms: seq<Module>, k: nat)
    requires Named(ms) && k < |ms|
    ensures Names(ms)[..k + 1] == Names(ms)[..k] + [ms[k].name] && ms[k].name !in Names(ms)[..k]
  {
    var names := Names(ms);
    assert forall i | 0 <= i < k :: names[i] != names[k];
  }

  lemma NameAt(ms: seq<Module>, i: nat)
    requires i < |ms|
    ensures |Names(ms)| == |ms| && Names(ms)[i] == ms[i].name
  {
  }

  lemma Single(x: Name)
    ensures Distinct([x])
  {
  }

  lemma ClassifiedNext(ms: seq<Module>, k: nat, l: Lists)
    requires Named(ms) && k < |ms| && Classified(ms, k, l)
    ensures ms[k].depends == [] ==> Classified(ms, k + 1, l.(start := l.start + [ms[k].name]))
    ensures ms[k].depends != [] ==>
      Classified(ms, k + 1, l.(dep := l.dep + [ms[k].name], left := l.left[ms[k].name := ms[k].depends]))
  {
    hide Distinct, Names;
    var x := ms[k].name;
    NewName(ms, k);
    NameAt(ms, k);
    Single(x);
    Joined(l.start, [x]);
    Joined(l.dep, [x]);
    forall i | 0 <= i < k ensures ms[i].name in Names(ms)[..k] {
      NameAt(ms, i);
      assert Names(ms)[..k][i] == ms[i].name;
    }
  }

  lemma AllClassified(ms: seq<Module>, l: Lists)
    requires Named(ms) && Classified(ms, |ms|, l)
    ensures Kept(ms, l)
  {
    hide Distinct;
    assert Names(ms)[..|ms|] == Names(ms);
    forall i | 0 <= i < |ms| ensures ModuleKept(ms, l, i) {
      assert Names(ms)[i] == ms[i].name;
    }
  }

  /** The first loop: modules without dependencies can start. */
  method Classify(ms: seq<Module>) returns (start: seq<Name>, dep: seq<Name>, left: map<Name, seq<Name>>)
    requires Named(ms)
    ensures Kept(ms, Lists(start, [], dep, left))
  {
    hide Left, Distinct, Apart, Names, ModuleKept;
    start, dep, left := [], [], map[];
    NoneClassified(ms);
    var k := 0;
    while k < |ms|
      invariant k <= |ms| && Classified(ms, k, Lists(start, [], dep, left))
    {
      var m := ms[k];
      ClassifiedNext(ms, k, Lists(start, [], dep, left));
      if m.depends == [] {
        start := start + [m.name];
      } else {
        dep := dep + [m.name];
        left := left[m.name := m.depends];
      }
      k := k + 1;
    }
    AllClassified(ms, Lists(start, [], dep, left));
  }

  /** The inner loop: `node` is taken off everybody's dependencies. */
  method TakeOff(dep: seq<Name>, left: map<Name, seq<Name>>, node: Name) returns (after: map<Name, seq<Name>>, freed: seq<Name>)
    requires Distinct(dep) && forall x | x in dep :: x in left && left[x] != []
    ensures forall x | x in dep :: x in after && after[x] == Remove(left[x], node)
    ensures Distinct(freed) && forall x :: x in freed <==> x in dep && x in after && after[x] == []
  {
    hide Remove;
    after, freed := left, [];
    var i := 0;
    while i < |dep|
      invariant i <= |dep| && forall x | x in left :: x in after
      invariant forall k | 0 <= k < |dep| :: after[dep[k]] == if k < i then Remove(left[dep[k]], node) else left[dep[k]]
      invariant Distinct(freed) && forall x :: x in freed <==> x in dep[..i] && after[x] == []
    {
      var x := dep[i];
      RemoveIs(left[x], node);
      assert dep[..i + 1] == dep[..i] + [x] && x !in dep[..i];
      if node in after[x] {
        after := after[x := Remove(after[x], node)];
        if after[x] == [] {
          freed := freed + [x];
        }
      }
      i := i + 1;
    }
    assert dep[..i] == dep;
  }

  /** The loop that removes the freed modules from the others. */
  method RemoveAll(dep: seq<Name>, freed: seq<Name>) returns (rest: seq<Name>)
    requires Distinct(dep) && Distinct(freed) && forall x | x in freed :: x in dep
    ensures Distinct(rest) && |rest| + |freed| == |dep| && forall x :: x in rest <==> x in dep && x !in freed
  {
    hide Remove;
    rest := dep;
    var i := 0;
    while i < |freed|
      invariant i <= |freed| && Distinct(rest) && |rest| + i == |dep|
      invariant forall x :: x in rest <==> x in dep && x !in freed[..i]
    {
      assert freed[..i + 1] == freed[..i] + [freed[i]] && freed[i] !in freed[..i];
      assert freed[i] in rest;
      RemoveIs(rest, freed[i]);
      rest := Remove(rest, freed[i]);
      i := i + 1;
    }
    assert freed[..i] == freed;
  }

  lemma LeftOver(ms: seq<Module>, l: Lists)
    requires Kept(ms, l)
    ensures Distinct(l.dep) && forall x | x in l.dep :: x in l.left && l.left[x] != []
  {
    hide Left;
    forall x | x in l.dep ensures x in l.left && l.left[x] != [] {
      assert x in Names(ms);
      var k :| 0 <= k < |ms| && ms[k].name == x;
      assert ModuleKept(ms, l, k);
    }
  }

  /** The sorting part of parse_modules(): it succeeds exactly on modules whose dependencies
      are listed once, exist and form no cycle, and puts these in order. */
  method ParseModules(ms: seq<Module>) returns (r: Outcome)
    requires Named(ms)
    ensures r.Sorted? <==> Resolvable(ms)
    ensures r.Sorted? ==> InOrder(ms, r.names)
    ensures r.Unresolved? ==> r.names != []
  {
    hide Left, Remove, ModuleKept, Placed, Resolvable, InOrder, Distinct;
    var start, dep, left := Classify(ms);
    var sorted: seq<Name> := [];
    while start != []
      invariant Kept(ms, Lists(start, sorted, dep, left))
      decreases |ms| - |sorted|
    {
      ghost var l := Lists(start, sorted, dep, left);
      LeftOver(ms, l);
      var after, freed := TakeOff(dep, left, start[0]);
      var rest := RemoveAll(dep, freed);
      sorted := sorted + [start[0]];
      start := start[1..] + freed;
      TurnKeeps(ms, l, Lists(start, sorted, rest, after), freed);
      dep, left := rest, after;
    }
    ghost var l := Lists(start, sorted, dep, left);
    if dep != [] {
      StuckIsUnresolvable(ms, l);
      return Unresolved(dep);
    }
    EmptyIsOrder(ms, l);
    return Sorted(sorted);
  }

  /** A dependency that is listed twice is refused as unmet or cyclic although it is neither. */
  lemma RepeatedDependencyFails()
    ensures
      var ms := [Module("a", []), Module("b", ["a", "a"])];
      && Named(ms) && (forall k, d | 0 <= k < |ms| && d in ms[k].depends :: d in Names(ms)) && (forall c :: !IsCycle(ms, c))
      && !Resolvable(ms)
  {
    var ms, names := [Module("a", []), Module("b", ["a", "a"])], ["a", "b"];
    assert Names(ms) == names;
    var d := ms[1].depends;
    assert d[0] == d[1] && !Distinct(d);
    assert names[0] == "a" && names[1] == "b";
    assert names[..1] == ["a"];
    assert InOrder(ms, names);
    forall c ensures !IsCycle(ms, c) {
      OrderHasNoCycle(ms, names, c);
    }
  }
}
