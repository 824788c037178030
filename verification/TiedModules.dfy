/** Device placement with tied modules, `_compute_device_placement_from_map_fast` in
    sllm_store/device_map_utils.py for the balanced placement. */
module TiedModules {
  import opened Collections
  import opened Placement

  datatype Module = Module(name: string, size: nat)

  /** Modules that share parameters, and the size of what they share. */
  datatype Group = Group(names: seq<string>, shared: nat)

  function Names(modules: seq<Module>): (r: seq<string>)
    ensures |r| == |modules| && forall x :: 0 <= x < |r| ==> r[x] == modules[x].name
  {
    seq(|modules|, x requires 0 <= x < |modules| => modules[x].name)
  }

  function Sizes(modules: seq<Module>): (r: seq<nat>)
    ensures |r| == |modules| && forall x :: 0 <= x < |r| ==> r[x] == modules[x].size
  {
    seq(|modules|, x requires 0 <= x < |modules| => modules[x].size)
  }

  /** What is shared is part of every module that shares it. */
  ghost predicate Shares(modules: seq<Module>, g: Group) {
    forall x :: 0 <= x < |modules| && modules[x].name in g.names ==> g.shared <= modules[x].size
  }

  /** Names are dictionary keys. */
  ghost predicate Once(modules: seq<Module>) {
    forall x, y :: 0 <= x < y < |modules| ==> modules[x].name != modules[y].name
  }

  // ---- Merging -------------------------------------------------------------------------

  /** Modules outside the group. */
  function Without(modules: seq<Module>, g: Group): seq<Module> {
    if modules == [] then []
    else (if modules[0].name in g.names then [] else [modules[0]]) + Without(modules[1..], g)
  }

  /** What the modules of the group hold beyond the shared part. */
  function Extra(modules: seq<Module>, g: Group): nat
    requires Shares(modules, g)
  {
    if modules == [] then 0
    else (if modules[0].name in g.names then modules[0].size - g.shared else 0) + Extra(modules[1..], g)
  }

  /** The first module of the group stands for all of them. */
  function Merge(modules: seq<Module>, g: Group): seq<Module>
    requires Shares(modules, g)
  {
    if modules == [] then []
    else if modules[0].name in g.names then
      [Module(modules[0].name, modules[0].size + Extra(modules[1..], g))] + Without(modules[1..], g)
    else [modules[0]] + Merge(modules[1..], g)
  }

  function MergeAll(modules: seq<Module>, groups: seq<Group>): seq<Module>
    requires AllShare(modules, groups)
    decreases |groups|
  {
    if groups == [] then modules
    else
      MergeShares(modules, groups);
      MergeAll(Merge(modules, groups[0]), groups[1..])
  }

  ghost predicate AllShare(modules: seq<Module>, groups: seq<Group>) {
    forall s :: 0 <= s < |groups| ==> Shares(modules, groups[s])
  }

  lemma {:induction false} MergeShares(modules: seq<Module>, groups: seq<Group>)
    requires groups != [] && AllShare(modules, groups)
    ensures AllShare(Merge(modules, groups[0]), groups[1..])
  {
    forall s | 0 <= s < |groups[1..]|
      ensures Shares(Merge(modules, groups[0]), groups[1..][s])
    {
      MergeKeepsSharing(modules, groups[0], groups[s + 1]);
    }
  }

  lemma {:induction false} WithoutKeepsSharing(modules: seq<Module>, g: Group, h: Group)
    requires Shares(modules, h)
    ensures Shares(Without(modules, g), h)
  {
    if modules != [] {
      assert Shares(modules[1..], h);
      WithoutKeepsSharing(modules[1..], g, h);
    }
  }

  lemma {:induction false} MergeKeepsSharing(modules: seq<Module>, g: Group, h: Group)
    requires Shares(modules, g) && Shares(modules, h)
    ensures Shares(Merge(modules, g), h)
  {
    if modules != [] {
      assert Shares(modules[1..], h) && Shares(modules[1..], g);
      if modules[0].name in g.names {
        WithoutKeepsSharing(modules[1..], g, h);
      } else {
        MergeKeepsSharing(modules[1..], g, h);
      }
    }
  }

  /** Where the first module of the group is at `f`. */
  lemma {:induction false} MergeAt(modules: seq<Module>, g: Group, f: nat)
    requires Shares(modules, g) && f < |modules| && modules[f].name in g.names
    requires forall x :: 0 <= x < f ==> modules[x].name !in g.names
    ensures Shares(modules[f + 1..], g)
    ensures Merge(modules, g) == modules[..f] + [Module(modules[f].name, modules[f].size + Extra(modules[f + 1..], g))]
                                 + Without(modules[f + 1..], g)
  {
    if f > 0 {
      assert Shares(modules[1..], g);
      MergeAt(modules[1..], g, f - 1);
      assert modules[1..][f..] == modules[f + 1..];
      assert [modules[0]] + modules[1..][..f - 1] == modules[..f];
    }
  }

  lemma {:induction false} MergeNone(modules: seq<Module>, g: Group)
    requires Shares(modules, g) && forall x :: 0 <= x < |modules| ==> modules[x].name !in g.names
    ensures Merge(modules, g) == modules
  {
    if modules != [] {
      assert Shares(modules[1..], g);
      MergeNone(modules[1..], g);
    }
  }

  method MergeGroup(modules: seq<Module>, g: Group) returns (r: seq<Module>)
    requires Shares(modules, g) && Once(modules)
    ensures r == Merge(modules, g)
  {
    r := modules;
    for f := 0 to |modules|
      invariant r == modules && forall x :: 0 <= x < f ==> modules[x].name !in g.names
    {
      if modules[f].name in g.names {
        r := FoldInto(modules, g, f);
        return;
      }
    }
    MergeNone(modules, g);
  }

  /** Module `x` is folded into the module at `f`. */
  predicate Folds(modules: seq<Module>, g: Group, f: nat, x: nat)
    requires f < |modules| && x < |modules|
  {
    modules[x].name in g.names && modules[x].name != modules[f].name
  }

  /** What is left of the first `x` modules. */
  function Kept(modules: seq<Module>, g: Group, f: nat, x: nat): seq<Module>
    requires f < |modules| && x <= |modules|
  {
    if x == 0 then []
    else Kept(modules, g, f, x - 1) + if Folds(modules, g, f, x - 1) then [] else [modules[x - 1]]
  }

  lemma {:induction false} KeptBefore(modules: seq<Module>, g: Group, f: nat, x: nat)
    requires x <= f + 1 <= |modules| && forall y :: 0 <= y < f ==> modules[y].name !in g.names
    ensures Kept(modules, g, f, x) == modules[..x]
  {
    if x > 0 {
      KeptBefore(modules, g, f, x - 1);
      assert modules[..x] == modules[..x - 1] + [modules[x - 1]];
    }
  }

  lemma {:induction false} KeptAfter(modules: seq<Module>, g: Group, f: nat, x: nat)
    requires f < x <= |modules| && Once(modules)
    ensures Kept(modules, g, f, |modules|) == Kept(modules, g, f, x) + Without(modules[x..], g)
    decreases |modules| - x
  {
    if x < |modules| {
      KeptAfter(modules, g, f, x + 1);
      assert modules[x..][1..] == modules[x + 1..];
    }
  }

  /** The size of the module at `f` with those of the first `x` modules folded in. */
  function TiedSize(modules: seq<Module>, g: Group, f: nat, x: nat): nat
    requires f < |modules| && x <= |modules| && Shares(modules, g)
  {
    if x == 0 then modules[f].size
    else TiedSize(modules, g, f, x - 1) + if Folds(modules, g, f, x - 1) then modules[x - 1].size - g.shared else 0
  }

  lemma {:induction false} TiedBefore(modules: seq<Module>, g: Group, f: nat, x: nat)
    requires x <= f + 1 <= |modules| && Shares(modules, g) && forall y :: 0 <= y < f ==> modules[y].name !in g.names
    ensures TiedSize(modules, g, f, x) == modules[f].size
  {
    if x > 0 {
      TiedBefore(modules, g, f, x - 1);
    }
  }

  lemma {:induction false} TiedAfter(modules: seq<Module>, g: Group, f: nat, x: nat)
    requires f < x <= |modules| && Once(modules) && Shares(modules, g)
    ensures Shares(modules[x..], g)
    ensures TiedSize(modules, g, f, |modules|) == TiedSize(modules, g, f, x) + Extra(modules[x..], g)
    decreases |modules| - x
  {
    assert Shares(modules[x..], g);
    if x < |modules| {
      TiedAfter(modules, g, f, x + 1);
      assert modules[x..][1..] == modules[x + 1..];
    }
  }

  lemma {:induction false} KeptShape(modules: seq<Module>, g: Group, f: nat)
    requires f < |modules| && Once(modules) && forall x :: 0 <= x < f ==> modules[x].name !in g.names
    ensures Kept(modules, g, f, |modules|) == modules[..f + 1] + Without(modules[f + 1..], g)
  {
    KeptBefore(modules, g, f, f + 1);
    KeptAfter(modules, g, f, f + 1);
  }

  lemma {:induction false} TiedShape(modules: seq<Module>, g: Group, f: nat)
    requires f < |modules| && Once(modules) && Shares(modules, g) && forall x :: 0 <= x < f ==> modules[x].name !in g.names
    ensures Shares(modules[f + 1..], g)
    ensures TiedSize(modules, g, f, |modules|) == modules[f].size + Extra(modules[f + 1..], g)
  {
    TiedBefore(modules, g, f, f + 1);
    TiedAfter(modules, g, f, f + 1);
  }

  lemma {:induction false} Folded(modules: seq<Module>, g: Group, f: nat, kept: seq<Module>, value: Module)
    requires Shares(modules, g) && f < |modules| && modules[f].name in g.names
    requires forall x :: 0 <= x < f ==> modules[x].name !in g.names
    requires Shares(modules[f + 1..], g)
    requires kept == modules[..f + 1] + Without(modules[f + 1..], g)
    requires value == Module(modules[f].name, modules[f].size + Extra(modules[f + 1..], g))
    ensures f < |kept| && kept[f := value] == Merge(modules, g)
  {
    MergeAt(modules, g, f);
    ReplaceAt(kept, modules, Without(modules[f + 1..], g), f, value, Merge(modules, g));
  }

  lemma ReplaceAt<T>(kept: seq<T>, a: seq<T>, rest: seq<T>, f: nat, value: T, r: seq<T>)
    requires f < |a| && kept == a[..f + 1] + rest && r == a[..f] + [value] + rest
    ensures f < |kept| && kept[f := value] == r
  {
  }

  /** Everything of the group goes into the module at `f`. */
  method FoldInto(modules: seq<Module>, g: Group, f: nat) returns (r: seq<Module>)
    requires Shares(modules, g) && Once(modules) && f < |modules| && modules[f].name in g.names
    requires forall x :: 0 <= x < f ==> modules[x].name !in g.names
    ensures r == Merge(modules, g)
  {
    var tiedSize, kept := modules[f].size, [];
    for x := 0 to |modules|
      invariant kept == Kept(modules, g, f, x) && tiedSize == TiedSize(modules, g, f, x)
    {
      if modules[x].name in g.names && modules[x].name != modules[f].name {
        tiedSize := tiedSize + (modules[x].size - g.shared);
      } else {
        kept := kept + [modules[x]];
      }
    }
    KeptShape(modules, g, f);
    TiedShape(modules, g, f);
    Folded(modules, g, f, kept, Module(modules[f].name, tiedSize));
    r := kept[f := Module(modules[f].name, tiedSize)];
  }

  // ---- Which modules remain ------------------------------------------------------------

  ghost predicate Has(modules: seq<Module>, name: string) {
    exists x :: 0 <= x < |modules| && modules[x].name == name
  }

  function Count(modules: seq<Module>, g: Group): nat {
    if modules == [] then 0 else (if modules[0].name in g.names then 1 else 0) + Count(modules[1..], g)
  }

  /** Name of the first module of the group. */
  function First(modules: seq<Module>, g: Group): string
    requires Count(modules, g) > 0
  {
    if modules[0].name in g.names then modules[0].name else First(modules[1..], g)
  }

  ghost predicate Apart(g: Group, h: Group) {
    forall name :: !(name in g.names && name in h.names)
  }

  ghost predicate AllApart(groups: seq<Group>) {
    forall s, t :: 0 <= s < t < |groups| ==> Apart(groups[s], groups[t])
  }

  lemma HasTail(modules: seq<Module>, name: string)
    requires modules != []
    ensures Has(modules, name) <==> modules[0].name == name || Has(modules[1..], name)
  {
    if Has(modules, name) && modules[0].name != name {
      var x :| 0 <= x < |modules| && modules[x].name == name;
      assert modules[1..][x - 1].name == name;
    }
    if Has(modules[1..], name) {
      var x :| 0 <= x < |modules[1..]| && modules[1..][x].name == name;
      assert modules[x + 1].name == name;
    }
  }

  lemma {:induction false} CountHas(modules: seq<Module>, g: Group, name: string)
    requires Has(modules, name) && name in g.names
    ensures Count(modules, g) > 0
  {
    HasTail(modules, name);
    if modules[0].name != name {
      CountHas(modules[1..], g, name);
    }
  }

  lemma {:induction false} FirstIn(modules: seq<Module>, g: Group)
    requires Count(modules, g) > 0
    ensures First(modules, g) in g.names && Has(modules, First(modules, g))
  {
    HasTail(modules, First(modules, g));
    if modules[0].name !in g.names {
      FirstIn(modules[1..], g);
    }
  }

  lemma {:induction false} WithoutNames(modules: seq<Module>, g: Group, name: string)
    ensures Has(Without(modules, g), name) <==> Has(modules, name) && name !in g.names
  {
    if modules != [] {
      HasTail(modules, name);
      WithoutNames(modules[1..], g, name);
      var r := Without(modules, g);
      if modules[0].name !in g.names {
        assert r[1..] == Without(modules[1..], g);
        HasTail(r, name);
      } else {
        assert r == Without(modules[1..], g);
      }
    }
  }

  /** Of a group, its first module remains. */
  lemma {:induction false} MergeNames(modules: seq<Module>, g: Group, name: string)
    requires Shares(modules, g)
    ensures Has(Merge(modules, g), name) <==>
            Has(modules, name) && (name in g.names ==> Count(modules, g) > 0 && name == First(modules, g))
  {
    if modules != [] {
      assert Shares(modules[1..], g);
      HasTail(modules, name);
      var r := Merge(modules, g);
      HasTail(r, name);
      if modules[0].name in g.names {
        assert r[1..] == Without(modules[1..], g);
        WithoutNames(modules[1..], g, name);
      } else {
        assert r[1..] == Merge(modules[1..], g);
        MergeNames(modules[1..], g, name);
      }
    }
  }

  lemma {:induction false} WithoutApart(modules: seq<Module>, g: Group, h: Group)
    requires Apart(g, h)
    ensures Count(Without(modules, g), h) == Count(modules, h)
    ensures Count(modules, h) > 0 ==> First(Without(modules, g), h) == First(modules, h)
  {
    if modules != [] {
      WithoutApart(modules[1..], g, h);
      var r := Without(modules, g);
      if modules[0].name !in g.names {
        assert r[1..] == Without(modules[1..], g);
      } else {
        assert r == Without(modules[1..], g);
      }
    }
  }

  lemma {:induction false} MergeApart(modules: seq<Module>, g: Group, h: Group)
    requires Shares(modules, g) && Apart(g, h)
    ensures Count(Merge(modules, g), h) == Count(modules, h)
    ensures Count(modules, h) > 0 ==> First(Merge(modules, g), h) == First(modules, h)
  {
    if modules != [] {
      assert Shares(modules[1..], g);
      var r := Merge(modules, g);
      if modules[0].name in g.names {
        assert r[1..] == Without(modules[1..], g);
        WithoutApart(modules[1..], g, h);
      } else {
        assert r[1..] == Merge(modules[1..], g);
        MergeApart(modules[1..], g, h);
      }
    }
  }

  /** Only the first module of each group remains. */
  ghost predicate Remains(modules: seq<Module>, groups: seq<Group>, name: string) {
    && Has(modules, name)
    && forall s :: 0 <= s < |groups| && name in groups[s].names ==>
         Count(modules, groups[s]) > 0 && name == First(modules, groups[s])
  }

  lemma {:induction false} MergeAllNames(modules: seq<Module>, groups: seq<Group>, name: string)
    requires AllShare(modules, groups) && AllApart(groups)
    ensures Has(MergeAll(modules, groups), name) <==> Remains(modules, groups, name)
    decreases |groups|
  {
    if groups != [] {
      MergeShares(modules, groups);
      var next, rest := Merge(modules, groups[0]), groups[1..];
      RestApart(groups);
      MergeAllNames(next, rest, name);
      MergeNames(modules, groups[0], name);
      RemainsStep(modules, groups, name);
    }
  }

  lemma RestApart(groups: seq<Group>)
    requires groups != [] && AllApart(groups)
    ensures AllApart(groups[1..])
    ensures forall s :: 0 <= s < |groups[1..]| ==> Apart(groups[0], groups[1..][s])
  {
    var rest := groups[1..];
    forall s, t | 0 <= s < t < |rest|
      ensures Apart(rest[s], rest[t])
    {
      assert Apart(groups[s + 1], groups[t + 1]);
    }
    forall s | 0 <= s < |rest|
      ensures Apart(groups[0], rest[s])
    {
      assert Apart(groups[0], groups[s + 1]);
    }
  }

  lemma {:induction false} RemainsStep(modules: seq<Module>, groups: seq<Group>, name: string)
    requires groups != [] && AllApart(groups) && Shares(modules, groups[0])
    ensures Remains(modules, groups, name) <==>
            Remains(Merge(modules, groups[0]), groups[1..], name)
  {
    var next, rest := Merge(modules, groups[0]), groups[1..];
    MergeNames(modules, groups[0], name);
    RestApart(groups);
    forall s | 0 <= s < |rest|
      ensures Count(next, rest[s]) == Count(modules, groups[s + 1])
      ensures Count(next, rest[s]) > 0 ==> First(next, rest[s]) == First(modules, groups[s + 1])
    {
      MergeApart(modules, groups[0], rest[s]);
    }
    if Remains(next, rest, name) {
      forall s | 0 <= s < |groups| && name in groups[s].names
        ensures Count(modules, groups[s]) > 0 && name == First(modules, groups[s])
      {
        if s > 0 {
          assert rest[s - 1] == groups[s];
        }
      }
    }
  }

  lemma OnceTail(modules: seq<Module>)
    requires modules != []
    ensures Once(modules) <==> Once(modules[1..]) && !Has(modules[1..], modules[0].name)
  {
    var rest := modules[1..];
    assert forall x :: 0 <= x < |rest| ==> rest[x] == modules[x + 1];
    forall x | 0 <= x < |rest|
      ensures Once(modules) ==> rest[x].name != modules[0].name
    {
      assert rest[x] == modules[x + 1];
    }
    if Once(rest) && !Has(rest, modules[0].name) {
      forall x, y | 0 <= x < y < |modules|
        ensures modules[x].name != modules[y].name
      {
        assert modules[y] == rest[y - 1];
        assert x > 0 ==> modules[x] == rest[x - 1];
      }
    }
  }

  lemma {:induction false} WithoutOnce(modules: seq<Module>, g: Group)
    requires Once(modules)
    ensures Once(Without(modules, g))
  {
    if modules != [] {
      OnceTail(modules);
      WithoutOnce(modules[1..], g);
      var r := Without(modules, g);
      if modules[0].name !in g.names {
        assert r[1..] == Without(modules[1..], g);
        WithoutNames(modules[1..], g, modules[0].name);
        OnceTail(r);
      } else {
        assert r == Without(modules[1..], g);
      }
    }
  }

  lemma {:induction false} MergeOnce(modules: seq<Module>, g: Group)
    requires Shares(modules, g) && Once(modules)
    ensures Once(Merge(modules, g))
  {
    if modules != [] {
      assert Shares(modules[1..], g);
      OnceTail(modules);
      var r := Merge(modules, g);
      OnceTail(r);
      if modules[0].name in g.names {
        assert r[1..] == Without(modules[1..], g);
        WithoutOnce(modules[1..], g);
        WithoutNames(modules[1..], g, modules[0].name);
      } else {
        assert r[1..] == Merge(modules[1..], g);
        MergeOnce(modules[1..], g);
        MergeNames(modules[1..], g, modules[0].name);
      }
    }
  }

  method MergeModules(modules: seq<Module>, groups: seq<Group>) returns (r: seq<Module>)
    requires Once(modules) && AllShare(modules, groups)
    ensures Once(r) && r == MergeAll(modules, groups)
  {
    r := modules;
    for s := 0 to |groups|
      invariant Once(r) && AllShare(r, groups[s..]) && MergeAll(r, groups[s..]) == MergeAll(modules, groups)
    {
      assert Shares(r, groups[s..][0]);
      MergeShares(r, groups[s..]);
      MergeOnce(r, groups[s]);
      assert groups[s..][1..] == groups[s + 1..];
      r := MergeGroup(r, groups[s]);
    }
  }

  /** `a` stands before `b`. */
  ghost predicate Ahead(modules: seq<Module>, a: string, b: string) {
    exists x, y :: 0 <= x < y < |modules| && modules[x].name == a && modules[y].name == b
  }

  lemma AheadTail(modules: seq<Module>, a: string, b: string)
    requires modules != []
    ensures Ahead(modules, a, b) <==> Ahead(modules[1..], a, b) || (modules[0].name == a && Has(modules[1..], b))
  {
    var rest := modules[1..];
    if Ahead(modules, a, b) {
      var x, y :| 0 <= x < y < |modules| && modules[x].name == a && modules[y].name == b;
      assert rest[y - 1].name == b;
      assert x > 0 ==> rest[x - 1].name == a;
    }
    if Ahead(rest, a, b) {
      var x, y :| 0 <= x < y < |rest| && rest[x].name == a && rest[y].name == b;
      assert modules[x + 1].name == a && modules[y + 1].name == b;
    }
    if modules[0].name == a && Has(rest, b) {
      var y :| 0 <= y < |rest| && rest[y].name == b;
      assert modules[y + 1].name == b;
    }
  }

  lemma {:induction false} WithoutAhead(modules: seq<Module>, g: Group, a: string, b: string)
    requires Ahead(Without(modules, g), a, b)
    ensures Ahead(modules, a, b)
  {
    if modules != [] {
      var r := Without(modules, g);
      AheadTail(modules, a, b);
      WithoutNames(modules[1..], g, b);
      if modules[0].name !in g.names {
        assert r[1..] == Without(modules[1..], g);
        AheadTail(r, a, b);
      } else {
        assert r == Without(modules[1..], g);
      }
      if Ahead(Without(modules[1..], g), a, b) {
        WithoutAhead(modules[1..], g, a, b);
      }
    }
  }

  lemma {:induction false} MergeAhead(modules: seq<Module>, g: Group, a: string, b: string)
    requires Shares(modules, g) && Ahead(Merge(modules, g), a, b)
    ensures Ahead(modules, a, b)
  {
    if modules != [] {
      assert Shares(modules[1..], g);
      var r := Merge(modules, g);
      AheadTail(modules, a, b);
      AheadTail(r, a, b);
      if modules[0].name in g.names {
        assert r[1..] == Without(modules[1..], g);
        WithoutNames(modules[1..], g, b);
        if Ahead(r[1..], a, b) {
          WithoutAhead(modules[1..], g, a, b);
        }
      } else {
        assert r[1..] == Merge(modules[1..], g);
        MergeNames(modules[1..], g, b);
        if Ahead(r[1..], a, b) {
          MergeAhead(modules[1..], g, a, b);
        }
      }
    }
  }

  /** Merging keeps the order of what remains. */
  lemma {:induction false} MergeAllAhead(modules: seq<Module>, groups: seq<Group>, a: string, b: string)
    requires AllShare(modules, groups) && Ahead(MergeAll(modules, groups), a, b)
    ensures Ahead(modules, a, b)
    decreases |groups|
  {
    if groups != [] {
      MergeShares(modules, groups);
      MergeAllAhead(Merge(modules, groups[0]), groups[1..], a, b);
      MergeAhead(modules, groups[0], a, b);
    }
  }

  // ---- Loads ---------------------------------------------------------------------------

  /** Total size of the modules on a device. */
  function Load(modules: seq<Module>, at: map<string, nat>, device: nat): nat {
    if modules == [] then 0
    else
      (if modules[0].name in at && at[modules[0].name] == device then modules[0].size else 0)
      + Load(modules[1..], at, device)
  }

  function Times(count: nat, size: nat): nat {
    if count == 0 then 0 else size + Times(count - 1, size)
  }

  /** What a group on the device saves there by holding its shared part once. */
  function SavedBy(modules: seq<Module>, g: Group, at: map<string, nat>, device: nat): nat {
    if Count(modules, g) > 0 && First(modules, g) in at && at[First(modules, g)] == device then
      Times(Count(modules, g) - 1, g.shared)
    else 0
  }

  function Saved(modules: seq<Module>, groups: seq<Group>, at: map<string, nat>, device: nat): nat {
    if groups == [] then 0
    else SavedBy(modules, groups[0], at, device) + Saved(modules, groups[1..], at, device)
  }

  ghost predicate OnDevice(modules: seq<Module>, g: Group, at: map<string, nat>, device: nat) {
    forall name :: name in g.names && Has(modules, name) ==> name in at && at[name] == device
  }

  /** The modules of a group are on one device. */
  ghost predicate Together(modules: seq<Module>, g: Group, at: map<string, nat>) {
    Count(modules, g) > 0 ==> First(modules, g) in at && OnDevice(modules, g, at, at[First(modules, g)])
  }

  lemma OnDeviceTail(modules: seq<Module>, g: Group, at: map<string, nat>, device: nat)
    requires modules != [] && OnDevice(modules, g, at, device)
    ensures OnDevice(modules[1..], g, at, device)
    ensures modules[0].name in g.names ==> modules[0].name in at && at[modules[0].name] == device
  {
    forall name | name in g.names && Has(modules[1..], name)
      ensures name in at && at[name] == device
    {
      HasTail(modules, name);
    }
    HasTail(modules, modules[0].name);
  }

  lemma {:induction false} WithoutLoad(modules: seq<Module>, g: Group, at: map<string, nat>, device: nat, d: nat)
    requires Shares(modules, g) && OnDevice(modules, g, at, device)
    ensures Load(modules, at, d) ==
            Load(Without(modules, g), at, d) + if d == device then Extra(modules, g) + Times(Count(modules, g), g.shared) else 0
  {
    if modules != [] {
      assert Shares(modules[1..], g);
      OnDeviceTail(modules, g, at, device);
      WithoutLoad(modules[1..], g, at, device, d);
      var r := Without(modules, g);
      if modules[0].name !in g.names {
        assert r[1..] == Without(modules[1..], g);
      } else {
        assert r == Without(modules[1..], g);
      }
    }
  }

  lemma {:induction false} MergeLoad(modules: seq<Module>, g: Group, at: map<string, nat>, device: nat, d: nat)
    requires Shares(modules, g) && OnDevice(modules, g, at, device)
    ensures Load(modules, at, d) ==
            Load(Merge(modules, g), at, d)
            + if d == device && Count(modules, g) > 0 then Times(Count(modules, g) - 1, g.shared) else 0
  {
    if modules != [] {
      assert Shares(modules[1..], g);
      OnDeviceTail(modules, g, at, device);
      var r := Merge(modules, g);
      if modules[0].name in g.names {
        WithoutLoad(modules[1..], g, at, device, d);
        assert r[1..] == Without(modules[1..], g);
      } else {
        MergeLoad(modules[1..], g, at, device, d);
        assert r[1..] == Merge(modules[1..], g);
      }
    }
  }

  ghost predicate AllTogether(modules: seq<Module>, groups: seq<Group>, at: map<string, nat>) {
    forall s :: 0 <= s < |groups| ==> Together(modules, groups[s], at)
  }

  lemma {:induction false} MergeTogether(modules: seq<Module>, g: Group, h: Group, at: map<string, nat>, d: nat)
    requires Shares(modules, g) && Apart(g, h) && Together(modules, h, at)
    ensures Together(Merge(modules, g), h, at)
    ensures SavedBy(Merge(modules, g), h, at, d) == SavedBy(modules, h, at, d)
  {
    MergeApart(modules, g, h);
    forall name | Has(Merge(modules, g), name)
      ensures Has(modules, name)
    {
      MergeNames(modules, g, name);
    }
  }

  lemma {:induction false} MergeSaved(modules: seq<Module>, g: Group, groups: seq<Group>, at: map<string, nat>, d: nat)
    requires Shares(modules, g) && AllTogether(modules, groups, at)
    requires forall s :: 0 <= s < |groups| ==> Apart(g, groups[s])
    ensures AllTogether(Merge(modules, g), groups, at)
    ensures Saved(Merge(modules, g), groups, at, d) == Saved(modules, groups, at, d)
  {
    if groups != [] {
      MergeTogether(modules, g, groups[0], at, d);
      assert AllTogether(modules, groups[1..], at) by {
        forall s | 0 <= s < |groups[1..]|
          ensures Together(modules, groups[1..][s], at)
        {
          assert Together(modules, groups[s + 1], at);
        }
      }
      MergeSaved(modules, g, groups[1..], at, d);
      forall s | 0 <= s < |groups|
        ensures Together(Merge(modules, g), groups[s], at)
      {
        assert s > 0 ==> groups[1..][s - 1] == groups[s];
      }
    }
  }

  /** Merging takes off a device what its groups save there. */
  lemma {:induction false} MergeAllLoad(modules: seq<Module>, groups: seq<Group>, at: map<string, nat>, d: nat)
    requires AllShare(modules, groups) && AllApart(groups) && AllTogether(modules, groups, at)
    ensures Load(modules, at, d) == Load(MergeAll(modules, groups), at, d) + Saved(modules, groups, at, d)
    decreases |groups|
  {
    if groups != [] {
      var next, rest := Merge(modules, groups[0]), groups[1..];
      MergeShares(modules, groups);
      RestApart(groups);
      assert AllTogether(modules, rest, at) by {
        forall s | 0 <= s < |rest|
          ensures Together(modules, rest[s], at)
        {
          assert Together(modules, groups[s + 1], at);
        }
      }
      MergeSaved(modules, groups[0], rest, at, d);
      MergeAllLoad(next, rest, at, d);
      FirstLoad(modules, groups[0], at, d);
    }
  }

  lemma {:induction false} FirstLoad(modules: seq<Module>, g: Group, at: map<string, nat>, d: nat)
    requires Shares(modules, g) && Together(modules, g, at)
    ensures Load(modules, at, d) == Load(Merge(modules, g), at, d) + SavedBy(modules, g, at, d)
  {
    if Count(modules, g) > 0 {
      MergeLoad(modules, g, at, at[First(modules, g)], d);
    } else {
      forall x | 0 <= x < |modules|
        ensures modules[x].name !in g.names
      {
        assert Has(modules, modules[x].name);
        if modules[x].name in g.names {
          CountHas(modules, g, modules[x].name);
        }
      }
      MergeNone(modules, g);
    }
  }

  // ---- Putting tied modules back -------------------------------------------------------

  /** The other members follow `key`. */
  function Spread(d: Dict, key: string, members: seq<string>): Dict
    requires key in d.at
    decreases |members|
  {
    if members == [] then d
    else Spread(if members[0] != key then d.Put(members[0], d.at[key]) else d, key, members[1..])
  }

  /** Every key of the group, in turn, draws the other members to its device. */
  function SpreadFrom(d: Dict, keys: seq<string>, g: Group): Dict
    requires forall key :: key in keys ==> key in d.at
    decreases |keys|
  {
    if keys == [] then d
    else
      var next := if keys[0] in g.names then Spread(d, keys[0], g.names) else d;
      assert forall key :: key in d.at ==> key in next.at by {
        if keys[0] in g.names {
          SpreadMeans(d, keys[0], g.names);
        }
      }
      SpreadFrom(next, keys[1..], g)
  }

  function Reassign(d: Dict, groups: seq<Group>): Dict
    requires d.Valid()
    decreases |groups|
  {
    if groups == [] then d
    else
      SpreadFromValid(d, d.keys, groups[0]);
      Reassign(SpreadFrom(d, d.keys, groups[0]), groups[1..])
  }

  lemma {:induction false} SpreadMeans(d: Dict, key: string, members: seq<string>)
    requires key in d.at
    ensures var r := Spread(d, key, members);
            && (d.Valid() ==> r.Valid())
            && forall name :: (name in r.at <==> name in d.at || name in members) &&
                 (name in r.at ==> r.at[name] == if name in members then d.at[key] else d.at[name])
    decreases |members|
  {
    if members != [] {
      var next := if members[0] != key then d.Put(members[0], d.at[key]) else d;
      SpreadMeans(next, key, members[1..]);
      assert forall name :: name in members <==> name == members[0] || name in members[1..];
    }
  }

  lemma {:induction false} SpreadFromValid(d: Dict, keys: seq<string>, g: Group)
    requires d.Valid() && forall key :: key in keys ==> key in d.at
    ensures SpreadFrom(d, keys, g).Valid()
    decreases |keys|
  {
    if keys != [] {
      if keys[0] in g.names {
        SpreadMeans(d, keys[0], g.names);
        SpreadFromValid(Spread(d, keys[0], g.names), keys[1..], g);
      } else {
        SpreadFromValid(d, keys[1..], g);
      }
    }
  }

  /** The only key of the group. */
  ghost predicate OnlyKey(keys: seq<string>, g: Group, key: string) {
    forall other :: other in keys && other in g.names ==> other == key
  }

  lemma {:induction false} SpreadFromMeans(d: Dict, keys: seq<string>, g: Group, key: string)
    requires (forall other :: other in keys ==> other in d.at) && OnlyKey(keys, g, key) && key in d.at && key in g.names
    ensures var r := SpreadFrom(d, keys, g);
            && (forall name :: name in r.at <==> name in d.at || (key in keys && name in g.names))
            && (forall name :: name in r.at ==> r.at[name] == if key in keys && name in g.names then d.at[key] else d.at[name])
    decreases |keys|
  {
    if keys != [] {
      assert OnlyKey(keys[1..], g, key);
      assert key in keys <==> key == keys[0] || key in keys[1..];
      if keys[0] in g.names {
        SpreadMeans(d, keys[0], g.names);
        SpreadFromMeans(Spread(d, keys[0], g.names), keys[1..], g, key);
      } else {
        SpreadFromMeans(d, keys[1..], g, key);
      }
    }
  }

  lemma {:induction false} SpreadFromNone(d: Dict, keys: seq<string>, g: Group)
    requires forall key :: key in keys ==> key in d.at && key !in g.names
    ensures SpreadFrom(d, keys, g) == d
    decreases |keys|
  {
    if keys != [] {
      SpreadFromNone(d, keys[1..], g);
    }
  }

  ghost predicate OneKey(d: Dict, g: Group) {
    forall a, b :: a in d.at && b in d.at && a in g.names && b in g.names ==> a == b
  }

  ghost predicate Keeps(d: Dict, r: Dict) {
    forall name :: name in d.at ==> name in r.at && r.at[name] == d.at[name]
  }

  /** Where `d` has a member of the group, `r` has all members on its device. */
  ghost predicate Draws(d: Dict, r: Dict, g: Group) {
    forall key, name :: key in d.at && key in g.names && name in g.names ==> name in r.at && r.at[name] == d.at[key]
  }

  /** With one key of the group in the dictionary, all its members follow it and nothing else
      moves. */
  lemma {:induction false} SpreadGroup(d: Dict, g: Group)
    requires d.Valid() && OneKey(d, g)
    ensures var r := SpreadFrom(d, d.keys, g);
            && r.Valid() && Keeps(d, r) && Draws(d, r, g)
            && (forall name :: name in r.at ==> name in d.at || name in g.names)
  {
    SpreadFromValid(d, d.keys, g);
    if key :| key in d.at && key in g.names {
      assert OnlyKey(d.keys, g, key);
      SpreadFromMeans(d, d.keys, g, key);
    } else {
      SpreadFromNone(d, d.keys, g);
    }
  }

  lemma {:induction false} ReassignMeans(d: Dict, groups: seq<Group>)
    requires d.Valid() && AllApart(groups) && forall s :: 0 <= s < |groups| ==> OneKey(d, groups[s])
    ensures Keeps(d, Reassign(d, groups))
    ensures forall s :: 0 <= s < |groups| ==> Draws(d, Reassign(d, groups), groups[s])
    decreases |groups|
  {
    if groups != [] {
      var next, rest := SpreadFrom(d, d.keys, groups[0]), groups[1..];
      SpreadGroup(d, groups[0]);
      RestApart(groups);
      forall s | 0 <= s < |rest|
        ensures OneKey(next, rest[s])
      {
        assert OneKey(d, groups[s + 1]) && Apart(groups[0], rest[s]);
      }
      ReassignMeans(next, rest);
      forall s | 0 <= s < |groups|
        ensures Draws(d, Reassign(d, groups), groups[s])
      {
        assert s > 0 ==> rest[s - 1] == groups[s];
        DrawsThrough(d, next, Reassign(next, rest), groups[s]);
      }
    }
  }

  lemma DrawsThrough(d: Dict, next: Dict, r: Dict, g: Group)
    requires Keeps(d, next) && Keeps(next, r) && (Draws(d, next, g) || Draws(next, r, g))
    ensures Keeps(d, r) && Draws(d, r, g)
  {
  }

  method ReassignTied(placement: Dict, groups: seq<Group>) returns (r: Dict)
    requires placement.Valid()
    ensures r == Reassign(placement, groups)
  {
    r := placement;
    for s := 0 to |groups|
      invariant r.Valid() && Reassign(r, groups[s..]) == Reassign(placement, groups)
    {
      SpreadFromValid(r, r.keys, groups[s]);
      r := FollowKeys(r, groups[s]);
      assert groups[s..][1..] == groups[s + 1..];
    }
  }

  method FollowKeys(d: Dict, g: Group) returns (r: Dict)
    requires d.Valid()
    ensures r == SpreadFrom(d, d.keys, g)
  {
    r := d;
    var keys := d.keys;
    for x := 0 to |keys|
      invariant forall key :: key in keys ==> key in r.at
      invariant SpreadFrom(r, keys[x..], g) == SpreadFrom(d, keys, g)
    {
      assert keys[x..][1..] == keys[x + 1..];
      if keys[x] in g.names {
        SpreadMeans(r, keys[x], g.names);
        r := FollowKey(r, keys[x], g.names);
      }
    }
  }

  method FollowKey(d: Dict, key: string, members: seq<string>) returns (r: Dict)
    requires key in d.at
    ensures r == Spread(d, key, members)
  {
    r := d;
    for x := 0 to |members|
      invariant key in r.at && r.at[key] == d.at[key]
      invariant Spread(r, key, members[x..]) == Spread(d, key, members)
    {
      assert members[x..][1..] == members[x + 1..];
      if members[x] != key {
        r := r.Put(members[x], r.at[key]);
      }
    }
  }

  lemma {:induction false} ReassignNothing(groups: seq<Group>)
    ensures Reassign(Dict([], map[]), groups) == Dict([], map[])
  {
    if groups != [] {
      ReassignNothing(groups[1..]);
    }
  }

  // ---- The placement -------------------------------------------------------------------

  datatype Result =
    | Devices(devices: Dict)
    | StopIteration
    | TooLarge
    | NoPlacement
    | AssertionError

  /** Every module is placed, tied modules together, and no device holds more than its memory when
      shared parts count once. */
  ghost predicate Fits(modules: seq<Module>, groups: seq<Group>, memory: seq<nat>, at: map<string, nat>) {
    && (forall name :: Has(modules, name) ==> name in at && at[name] < |memory|)
    && (forall s, a, b :: 0 <= s < |groups| && a in groups[s].names && b in groups[s].names &&
                          Has(modules, a) && Has(modules, b) ==>
          a in at && b in at && at[a] == at[b])
    && (forall d :: 0 <= d < |memory| ==> Load(modules, at, d) <= memory[d] + Saved(modules, groups, at, d))
  }

  lemma {:induction false} PartOfModule(p: Problem, parts: seq<(nat, nat)>, i: nat, k: nat, x: nat) returns (q: nat)
    requires 1 <= k <= p.N() && i <= |p.sizes| && Contiguous(p, parts, i, k) && x < i
    ensures q < k && parts[q].0 <= x < parts[q].1
  {
    if x >= parts[k - 1].0 {
      q := k - 1;
    } else {
      ContiguousShorter(p, parts, i, k);
      q := PartOfModule(p, parts, parts[k - 1].0, k - 1, x);
    }
  }

  /** The load of a device is the size of its part. */
  lemma {:induction false} LoadFrom(modules: seq<Module>, p: Problem, at: map<string, nat>, d: nat, lo: nat, hi: nat, x: nat)
    requires Sizes(modules) == p.sizes && lo < hi <= |modules| && x <= |modules|
    requires forall y :: 0 <= y < |modules| ==>
               modules[y].name in at && (at[modules[y].name] == d <==> lo <= y < hi)
    ensures Load(modules[x..], at, d) == p.Size(if x < lo then lo else x, hi)
    decreases |modules| - x
  {
    if x < |modules| {
      LoadFrom(modules, p, at, d, lo, hi, x + 1);
      assert modules[x..][1..] == modules[x + 1..];
      if lo <= x < hi {
        SizesOf(p, x, hi);
      }
    }
  }

  lemma {:induction false} DeviceLoad(modules: seq<Module>, p: Problem, parts: seq<(nat, nat)>, d: Dict, q: nat)
    requires Sizes(modules) == p.sizes && |parts| == p.N() && q < p.N() && modules != []
    requires Contiguous(p, parts, |modules|, p.N()) && Follows(d, Names(modules), parts, |modules|)
    ensures Load(modules, d.at, q) == p.Size(parts[q].0, parts[q].1) <= p.memory[q]
  {
    forall y | 0 <= y < |modules|
      ensures modules[y].name in d.at && (d.at[modules[y].name] == q <==> parts[q].0 <= y < parts[q].1)
    {
      var r := PartOfModule(p, parts, |modules|, p.N(), y);
      assert Names(modules)[y] == modules[y].name;
    }
    LoadFrom(modules, p, d.at, q, parts[q].0, parts[q].1, 0);
    assert modules[0..] == modules;
  }

  /** The dictionary of a device map over the merged modules. */
  ghost predicate PlacesMerged(merged: seq<Module>, p: Problem, parts: seq<(nat, nat)>, d: Dict) {
    && merged != [] && Sizes(merged) == p.sizes && |parts| == p.N()
    && Contiguous(p, parts, |merged|, p.N()) && Follows(d, Names(merged), parts, |merged|)
  }

  lemma MergedPlaced(merged: seq<Module>, p: Problem, parts: seq<(nat, nat)>, d: Dict, name: string)
    requires PlacesMerged(merged, p, parts, d)
    ensures name in d.at <==> Has(merged, name)
    ensures name in d.at ==> d.at[name] < p.N()
  {
    assert Names(merged)[..|merged|] == Names(merged);
    if name in d.at {
      var x :| 0 <= x < |merged| && Names(merged)[x] == name;
      assert merged[x].name == name;
      var q := PartOfModule(p, parts, |merged|, p.N(), x);
    }
    if Has(merged, name) {
      var x :| 0 <= x < |merged| && merged[x].name == name;
      assert Names(merged)[x] == name && name in d.keys;
    }
  }

  lemma {:induction false} GroupOneKey(modules: seq<Module>, groups: seq<Group>, p: Problem, parts: seq<(nat, nat)>, d: Dict, s: nat)
    requires AllShare(modules, groups) && AllApart(groups) && PlacesMerged(MergeAll(modules, groups), p, parts, d)
    requires s < |groups|
    ensures OneKey(d, groups[s])
  {
    var merged := MergeAll(modules, groups);
    forall a, b | a in d.at && b in d.at && a in groups[s].names && b in groups[s].names
      ensures a == b
    {
      MergedPlaced(merged, p, parts, d, a);
      MergedPlaced(merged, p, parts, d, b);
      MergeAllNames(modules, groups, a);
      MergeAllNames(modules, groups, b);
    }
  }

  /** The first module of a group remains after all merging. */
  lemma {:induction false} FirstRemains(modules: seq<Module>, groups: seq<Group>, s: nat)
    requires AllShare(modules, groups) && AllApart(groups) && s < |groups| && Count(modules, groups[s]) > 0
    ensures Has(MergeAll(modules, groups), First(modules, groups[s]))
  {
    var first := First(modules, groups[s]);
    FirstIn(modules, groups[s]);
    forall t | 0 <= t < |groups|
      ensures first in groups[t].names ==> t == s
    {
      assert t < s ==> Apart(groups[t], groups[s]);
      assert s < t ==> Apart(groups[s], groups[t]);
    }
    MergeAllNames(modules, groups, first);
  }

  lemma {:induction false} MemberPlaced(modules: seq<Module>, groups: seq<Group>, p: Problem, parts: seq<(nat, nat)>, d: Dict, s: nat, name: string)
    requires AllShare(modules, groups) && AllApart(groups) && PlacesMerged(MergeAll(modules, groups), p, parts, d)
    requires s < |groups| && name in groups[s].names && Has(modules, name)
    requires Draws(d, Reassign(d, groups), groups[s])
    ensures Count(modules, groups[s]) > 0 && First(modules, groups[s]) in d.at && First(modules, groups[s]) in groups[s].names
    ensures var r := Reassign(d, groups);
            name in r.at && r.at[name] == d.at[First(modules, groups[s])] < p.N()
  {
    CountHas(modules, groups[s], name);
    FirstRemains(modules, groups, s);
    FirstIn(modules, groups[s]);
    MergedPlaced(MergeAll(modules, groups), p, parts, d, First(modules, groups[s]));
    DrawsAt(d, Reassign(d, groups), groups[s], First(modules, groups[s]), name);
  }

  lemma DrawsAt(d: Dict, r: Dict, g: Group, key: string, name: string)
    requires Draws(d, r, g) && key in d.at && key in g.names && name in g.names
    ensures name in r.at && r.at[name] == d.at[key]
  {
  }

  lemma {:induction false} OtherPlaced(modules: seq<Module>, groups: seq<Group>, p: Problem, parts: seq<(nat, nat)>, d: Dict, name: string)
    requires AllShare(modules, groups) && AllApart(groups) && PlacesMerged(MergeAll(modules, groups), p, parts, d)
    requires Has(modules, name) && forall s :: 0 <= s < |groups| ==> name !in groups[s].names
    ensures name in d.at && d.at[name] < p.N()
  {
    MergeAllNames(modules, groups, name);
    MergedPlaced(MergeAll(modules, groups), p, parts, d, name);
  }

  lemma {:induction false} LoadSame(modules: seq<Module>, a: map<string, nat>, b: map<string, nat>, d: nat)
    requires forall name :: Has(modules, name) ==> name in a && name in b && a[name] == b[name]
    ensures Load(modules, a, d) == Load(modules, b, d)
  {
    if modules != [] {
      HasTail(modules, modules[0].name);
      forall name | Has(modules[1..], name)
        ensures name in a && name in b && a[name] == b[name]
      {
        HasTail(modules, name);
      }
      LoadSame(modules[1..], a, b, d);
    }
  }

  lemma {:induction false} FinalLoad(modules: seq<Module>, groups: seq<Group>, p: Problem, parts: seq<(nat, nat)>, d: Dict, at: map<string, nat>, q: nat)
    requires AllShare(modules, groups) && AllApart(groups) && PlacesMerged(MergeAll(modules, groups), p, parts, d)
    requires AllTogether(modules, groups, at) && q < p.N()
    requires forall name :: name in d.at ==> name in at && at[name] == d.at[name]
    ensures Load(modules, at, q) <= p.memory[q] + Saved(modules, groups, at, q)
  {
    MergeAllLoad(modules, groups, at, q);
    MergedLoad(MergeAll(modules, groups), p, parts, d, at, q);
  }

  /** A cut of the merged modules becomes a placement of all modules. */
  lemma {:induction false} TiedFits(modules: seq<Module>, groups: seq<Group>, p: Problem, parts: seq<(nat, nat)>, d: Dict)
    requires AllShare(modules, groups) && AllApart(groups) && PlacesMerged(MergeAll(modules, groups), p, parts, d)
    ensures Fits(modules, groups, p.memory, Reassign(d, groups).at)
  {
    var at := Reassign(d, groups).at;
    forall s | 0 <= s < |groups|
      ensures OneKey(d, groups[s])
    {
      GroupOneKey(modules, groups, p, parts, d, s);
    }
    ReassignMeans(d, groups);
    forall s, name | 0 <= s < |groups| && name in groups[s].names && Has(modules, name)
      ensures Count(modules, groups[s]) > 0 && First(modules, groups[s]) in at
      ensures name in at && at[name] == at[First(modules, groups[s])] < p.N()
    {
      MemberPlaced(modules, groups, p, parts, d, s, name);
    }
    forall name | Has(modules, name)
      ensures name in at && at[name] < p.N()
    {
      if forall s :: 0 <= s < |groups| ==> name !in groups[s].names {
        OtherPlaced(modules, groups, p, parts, d, name);
      }
    }
    forall s | 0 <= s < |groups|
      ensures Together(modules, groups[s], at)
    {
      if Count(modules, groups[s]) > 0 {
        FirstIn(modules, groups[s]);
      }
    }
    forall q | 0 <= q < p.N()
      ensures Load(modules, at, q) <= p.memory[q] + Saved(modules, groups, at, q)
    {
      FinalLoad(modules, groups, p, parts, d, at, q);
    }
  }

  // ---- The placement is the balanced one -----------------------------------------------

  /** Every module of part `q` is on device `q`. */
  ghost predicate ByParts(merged: seq<Module>, parts: seq<(nat, nat)>, at: map<string, nat>) {
    forall x, q :: 0 <= x < |merged| && 0 <= q < |parts| && parts[q].0 <= x < parts[q].1 ==>
      merged[x].name in at && at[merged[x].name] == q
  }

  /** The merged modules are on the devices as the chosen cut has them. */
  ghost predicate PlacedAsChosen(merged: seq<Module>, memory: seq<nat>, at: map<string, nat>) {
    exists parts: seq<(nat, nat)> ::
      |parts| == |memory| && Chosen(Problem(Sizes(merged), memory), parts, |merged|, |memory|) && ByParts(merged, parts, at)
  }

  /** Along the merged modules the devices go up from the first to the last without a gap. */
  ghost predicate InOrder(merged: seq<Module>, devices: nat, at: map<string, nat>) {
    && (forall x :: 0 <= x < |merged| ==> merged[x].name in at)
    && (merged != [] ==> at[merged[0].name] == 0 && at[merged[|merged| - 1].name] == devices - 1)
    && (forall x :: 0 <= x < |merged| - 1 ==> SameOrNext(at[merged[x].name], at[merged[x + 1].name]))
  }

  predicate SameOrNext(a: nat, b: nat) {
    b == a || b == a + 1
  }

  /** On two devices the loads are no further apart than the parts of any cut that fits. */
  ghost predicate Closest(merged: seq<Module>, memory: seq<nat>, at: map<string, nat>) {
    var p := Problem(Sizes(merged), memory);
    |memory| == 2 ==>
      forall split :: 0 < split < |merged| && p.Size(0, split) <= memory[0] && p.Size(split, |merged|) <= memory[1] ==>
        Distance(Load(merged, at, 0), Load(merged, at, 1)) <= Distance(p.Size(0, split), p.Size(split, |merged|))
  }

  ghost predicate BalancedOver(merged: seq<Module>, memory: seq<nat>, at: map<string, nat>) {
    PlacedAsChosen(merged, memory, at) && InOrder(merged, |memory|, at) && Closest(merged, memory, at)
  }

  lemma FollowsByParts(merged: seq<Module>, p: Problem, parts: seq<(nat, nat)>, d: Dict, at: map<string, nat>)
    requires PlacesMerged(merged, p, parts, d) && forall name :: name in d.at ==> name in at && at[name] == d.at[name]
    ensures ByParts(merged, parts, at)
  {
    forall x, q | 0 <= x < |merged| && 0 <= q < |parts| && parts[q].0 <= x < parts[q].1
      ensures merged[x].name in at && at[merged[x].name] == q
    {
      assert Names(merged)[x] == merged[x].name;
    }
  }

  lemma PartsInOrder(merged: seq<Module>, p: Problem, parts: seq<(nat, nat)>, at: map<string, nat>)
    requires merged != [] && Sizes(merged) == p.sizes && |parts| == p.N() >= 1
    requires Contiguous(p, parts, |merged|, p.N()) && ByParts(merged, parts, at)
    ensures InOrder(merged, p.N(), at)
  {
    forall x | 0 <= x < |merged|
      ensures merged[x].name in at
      ensures x < |merged| - 1 ==> merged[x + 1].name in at && SameOrNext(at[merged[x].name], at[merged[x + 1].name])
    {
      var q := PartOfModule(p, parts, |merged|, p.N(), x);
      if x < |merged| - 1 {
        NextInParts(p, parts, |merged|, x, q);
      }
    }
  }

  /** The next module is in the same part or in the next one. */
  lemma NextInParts(p: Problem, parts: seq<(nat, nat)>, i: nat, x: nat, q: nat)
    requires |parts| == p.N() && q < p.N() && i <= |p.sizes| && Contiguous(p, parts, i, p.N())
    requires parts[q].0 <= x < parts[q].1 && x + 1 < i
    ensures x + 1 < parts[q].1 || (q + 1 < p.N() && parts[q + 1].0 == x + 1 < parts[q + 1].1)
  {
  }

  lemma {:induction false} TwoClosest(merged: seq<Module>, p: Problem, d: Dict, at: map<string, nat>)
    requires Sizes(merged) == p.sizes && PlacesMerged(merged, p, Best(p, |merged|, p.N()).parts, d) && p.N() == 2
    requires forall name :: name in d.at ==> name in at && at[name] == d.at[name]
    ensures Closest(merged, p.memory, at)
  {
    var parts := Best(p, |merged|, 2).parts;
    MergedLoad(merged, p, parts, d, at, 0);
    MergedLoad(merged, p, parts, d, at, 1);
    assert p == Problem(Sizes(merged), p.memory);
    forall split: nat | 0 < split < |merged| && p.Size(0, split) <= p.memory[0] && p.Size(split, |merged|) <= p.memory[1]
      ensures Distance(Load(merged, at, 0), Load(merged, at, 1)) <= Distance(p.Size(0, split), p.Size(split, |merged|))
    {
      TwoDevicesBalanced(p, split);
    }
  }

  lemma {:induction false} MergedLoad(merged: seq<Module>, p: Problem, parts: seq<(nat, nat)>, d: Dict, at: map<string, nat>, q: nat)
    requires PlacesMerged(merged, p, parts, d) && q < p.N()
    requires forall name :: name in d.at ==> name in at && at[name] == d.at[name]
    ensures Load(merged, at, q) == p.Size(parts[q].0, parts[q].1) <= p.memory[q]
  {
    forall name | Has(merged, name)
      ensures name in at && name in d.at && at[name] == d.at[name]
    {
      MergedPlaced(merged, p, parts, d, name);
    }
    LoadSame(merged, at, d.at, q);
    DeviceLoad(merged, p, parts, d, q);
  }

  lemma {:induction false} TiedKeeps(modules: seq<Module>, groups: seq<Group>, p: Problem, parts: seq<(nat, nat)>, d: Dict)
    requires AllShare(modules, groups) && AllApart(groups) && PlacesMerged(MergeAll(modules, groups), p, parts, d)
    ensures Keeps(d, Reassign(d, groups))
  {
    forall s | 0 <= s < |groups|
      ensures OneKey(d, groups[s])
    {
      GroupOneKey(modules, groups, p, parts, d, s);
    }
    ReassignMeans(d, groups);
  }

  /** What is placed is the balanced placement of the merged modules. */
  lemma {:induction false} TiedBalanced(modules: seq<Module>, groups: seq<Group>, p: Problem, d: Dict)
    requires AllShare(modules, groups) && AllApart(groups) && p.N() >= 1
    requires var merged := MergeAll(modules, groups);
             Sizes(merged) == p.sizes && PlacesMerged(merged, p, Best(p, |merged|, p.N()).parts, d) && Best(p, |merged|, p.N()).gap.Fin?
    ensures BalancedOver(MergeAll(modules, groups), p.memory, Reassign(d, groups).at)
  {
    var merged, at := MergeAll(modules, groups), Reassign(d, groups).at;
    var parts := Best(p, |merged|, p.N()).parts;
    TiedKeeps(modules, groups, p, parts, d);
    FollowsByParts(merged, p, parts, d, at);
    BestChosen(p, |merged|, p.N());
    assert p == Problem(Sizes(merged), p.memory);
    PartsInOrder(merged, p, parts, at);
    if p.N() == 2 {
      TwoClosest(merged, p, d, at);
    }
  }

  /** Devices are dropped from the end while the first module exceeds the first of them. */
  ghost predicate NoFirst(modules: seq<Module>, memory: seq<nat>) {
    modules == [] || memory == [] || modules[0].size > memory[0]
  }

  method ComputePlacement(modules: seq<Module>, groups: seq<Group>, memory: seq<nat>) returns (r: Result)
    requires Once(modules) && AllShare(modules, groups)
    ensures var merged := MergeAll(modules, groups);
            && (r.StopIteration? <==> NoFirst(merged, memory))
            && (r.TooLarge? <==> !NoFirst(merged, memory) && Sum(Sizes(merged)) > Sum(memory))
            && (r.AssertionError? <==> !NoFirst(merged, memory) && Sum(Sizes(merged)) <= Sum(memory) && |merged| < |memory|)
            && !r.NoPlacement?
            && (r.Devices? ==>
                  if Feasible(Problem(Sizes(merged), memory), |merged|, |memory|)
                  then AllApart(groups) ==> Fits(modules, groups, memory, r.devices.at) && BalancedOver(merged, memory, r.devices.at)
                  else r.devices.keys == [])
  {
    var merged := MergeModules(modules, groups);
    if merged == [] {
      return StopIteration;
    }
    var left := memory;
    if left == [] {
      return StopIteration;
    }
    while merged[0].size > left[0]
      invariant left != [] && left <= memory && (left == memory || merged[0].size > left[0])
      decreases |left|
    {
      left := left[..|left| - 1];
      if left == [] {
        return StopIteration;
      }
    }
    if Sum(Sizes(merged)) > Sum(left) {
      return TooLarge;
    }
    var p := Problem(Sizes(merged), left);
    var placement := BalancedPlacement(Names(merged), p);
    match placement {
      case NoDevices => return NoPlacement;
      case AssertionFailed => return AssertionError;
      case Placed(d) =>
        var devices := ReassignTied(d, groups);
        r := Devices(devices);
        if Feasible(p, |merged|, p.N()) && AllApart(groups) {
          BestSound(p, |merged|, p.N());
          TiedFits(modules, groups, p, Best(p, |merged|, p.N()).parts, d);
          TiedBalanced(modules, groups, p, d);
        }
        if !Feasible(p, |merged|, p.N()) {
          ReassignNothing(groups);
        }
    }
  }
}
