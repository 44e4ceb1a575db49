/**
 * `createImports`: the import list of one generated factory. A fixed baseline is put into an
 * insertion-ordered set, every plugin adds its own entries, the set is sorted, and imports of
 * top-level classes of the importing package itself are dropped.
 */
module Imports {
  import opened Wrappers
  import opened Strings
  import opened Sorting
  import opened Plugins

  const GraphBuilderConf := "jdk.graal.compiler.nodes.graphbuilderconf."
  const ExcludeFromJacoco := "jdk.graal.compiler.options.ExcludeFromJacocoGeneratedReport"
  const ReplacementWithExceptionNode := "jdk.graal.compiler.nodes.PluginReplacementWithExceptionNode"
  const ReplacementNode := "jdk.graal.compiler.nodes.PluginReplacementNode"

  /** The seven imports every factory starts from, in the order they are added. */
  const Baseline: seq<string> := [
    "jdk.vm.ci.meta.ResolvedJavaMethod",
    "jdk.graal.compiler.nodes.ValueNode",
    "jdk.graal.compiler.nodes.graphbuilderconf.GraphBuilderContext",
    "jdk.graal.compiler.nodes.graphbuilderconf.InvocationPlugin",
    "jdk.graal.compiler.nodes.graphbuilderconf.InvocationPlugins",
    "jdk.graal.compiler.nodes.graphbuilderconf.GeneratedPluginFactory",
    "jdk.graal.compiler.nodes.graphbuilderconf.GeneratedPluginInjectionProvider"
  ]

  predicate NoDuplicates(s: seq<string>) {
    forall i, j :: 0 <= i < j < |s| ==> s[i] != s[j]
  }

  // ---------------------------------------------------------------------------------------------
  // The insertion-ordered set (`LinkedHashSet`), as the sequence of its elements

  /** `set.add(x)`: appended when new, otherwise the set is unchanged. */
  function Add(s: seq<string>, x: string): (r: seq<string>)
    ensures forall y :: y in r <==> y in s || y == x
    ensures NoDuplicates(s) ==> NoDuplicates(r)
    ensures |s| <= |r| && r[..|s|] == s
  {
    if x in s then s else s + [x]
  }

  /** Adding every element of `xs` in turn. */
  function AddAll(s: seq<string>, xs: seq<string>): (r: seq<string>)
    ensures forall y :: y in r <==> y in s || y in xs
    ensures NoDuplicates(s) ==> NoDuplicates(r)
    ensures |s| <= |r| && r[..|s|] == s
    decreases |xs|
  {
    if xs == [] then s
    else
      var t := Add(s, xs[0]);
      var r := AddAll(t, xs[1..]);
      AddAllStep(s, xs, t, r);
      r
  }

  /** One step of `AddAll`: what holds of `t` after the first element and of `r` after the rest. */
  lemma AddAllStep(s: seq<string>, xs: seq<string>, t: seq<string>, r: seq<string>)
    requires xs != []
    requires forall y :: y in t <==> y in s || y == xs[0]
    requires forall y :: y in r <==> y in t || y in xs[1..]
    requires |s| <= |t| && t[..|s|] == s && |t| <= |r| && r[..|t|] == t
    ensures forall y :: y in r <==> y in s || y in xs
    ensures |s| <= |r| && r[..|s|] == s
  {
    assert xs == [xs[0]] + xs[1..];
    assert r[..|s|] == r[..|t|][..|s|];
  }

  lemma {:induction false} AddAllConcat(s: seq<string>, a: seq<string>, b: seq<string>)
    ensures AddAll(AddAll(s, a), b) == AddAll(s, a + b)
    decreases |a|
  {
    if a == [] {
      assert a + b == b;
    } else {
      assert (a + b)[0] == a[0] && (a + b)[1..] == a[1..] + b;
      AddAllConcat(Add(s, a[0]), a[1..], b);
    }
  }

  // ---------------------------------------------------------------------------------------------
  // What each plugin contributes

  /**
   * Everything one turn of the collecting loop adds, in the order it adds it: the plugin's own
   * extra imports, its superclass, and the replacement entries its two flags select.
   */
  function PluginImports(p: GeneratedPlugin): seq<string> {
    var base := p.extraImports + [GraphBuilderConf + p.pluginSuperclass];
    if !p.needsReplacement then base
    else if p.isWithExceptionReplacement then base + [ExcludeFromJacoco] + [ReplacementWithExceptionNode]
    else base + [ExcludeFromJacoco] + [ReplacementNode]
  }

  lemma BaselineDistinct()
    ensures NoDuplicates(Baseline)
  {
  }

  /** The set after the collecting loop has seen `ps`, started from `init`. */
  function CollectedFrom(init: seq<string>, ps: seq<GeneratedPlugin>): (r: seq<string>)
    ensures NoDuplicates(init) ==> NoDuplicates(r)
    ensures |init| <= |r| && r[..|init|] == init
  {
    if ps == [] then init
    else
      var prev := CollectedFrom(init, ps[..|ps| - 1]);
      var r := AddAll(prev, PluginImports(ps[|ps| - 1]));
      assert r[..|init|] == prev[..|init|];
      r
  }

  /** The set `createImports` builds: the baseline, then what every plugin adds. */
  function Collected(ps: seq<GeneratedPlugin>): (r: seq<string>)
    ensures NoDuplicates(r)
    ensures |Baseline| <= |r| && r[..|Baseline|] == Baseline
  {
    BaselineDistinct();
    CollectedFrom(Baseline, ps)
  }

  function Id(s: string): string {
    s
  }

  /** The collected imports in `String` order (`Arrays.sort`). */
  function SortedImports(ps: seq<GeneratedPlugin>): seq<string> {
    SortBy(Collected(ps), Id)
  }

  // ---------------------------------------------------------------------------------------------
  // The package/class boundary: the first match of `\.([A-Z])`

  predicate IsBoundaryAt(s: string, m: int) {
    0 <= m && m + 1 < |s| && s[m] == '.' && 'A' <= s[m + 1] <= 'Z'
  }

  /** `matcher.find()` started at `from`: the leftmost boundary at or after `from`. */
  function FindBoundary(s: string, from: nat): (r: Option<nat>)
    ensures r.Some? ==> from <= r.value && IsBoundaryAt(s, r.value)
    ensures r.Some? ==> forall m :: from <= m < r.value ==> !IsBoundaryAt(s, m)
    ensures r.None? ==> forall m :: from <= m ==> !IsBoundaryAt(s, m)
    decreases |s| - from
  {
    if from + 1 >= |s| then None
    else if IsBoundaryAt(s, from) then Some(from)
    else FindBoundary(s, from + 1)
  }

  /**
   * The import is skipped: its package part (before the first boundary) is the importing package
   * and its class part (after the dot) names a top-level class.
   */
  predicate Elided(i: string, importingPackage: string) {
    match FindBoundary(i, 0)
    case None => false
    case Some(k) => i[..k] == importingPackage && '.' !in i[k + 1..]
  }

  /** The imports of `s` that are written out, in order. */
  function Kept(s: seq<string>, importingPackage: string): (r: seq<string>)
    ensures forall x :: x in r <==> x in s && !Elided(x, importingPackage)
  {
    if s == [] then []
    else
      var last := s[|s| - 1];
      assert forall x :: x in s <==> x in s[..|s| - 1] || x == last by {
        assert s == s[..|s| - 1] + [last];
      }
      Kept(s[..|s| - 1], importingPackage) + (if Elided(last, importingPackage) then [] else [last])
  }

  /** The `import` lines `createImports` prints, in order. */
  function Emitted(ps: seq<GeneratedPlugin>, importingPackage: string): seq<string> {
    Kept(SortedImports(ps), importingPackage)
  }

  // ---------------------------------------------------------------------------------------------
  // The method

  lemma AddAllThenAdd(s: seq<string>, a: seq<string>, x: string)
    ensures AddAll(s, a + [x]) == Add(AddAll(s, a), x)
  {
    AddAllConcat(s, a, [x]);
    assert [x][1..] == [];
  }

  /** One turn of the collecting loop: the entries one plugin adds to the set, in order. */
  method AddPluginImports(extra: seq<string>, plugin: GeneratedPlugin) returns (r: seq<string>)
    ensures r == AddAll(extra, PluginImports(plugin))
  {
    var superclassImport := GraphBuilderConf + plugin.pluginSuperclass;
    ghost var base := plugin.extraImports + [superclassImport];
    r := AddAll(extra, plugin.extraImports);
    r := Add(r, superclassImport);
    AddAllThenAdd(extra, plugin.extraImports, superclassImport);
    if plugin.needsReplacement {
      r := Add(r, ExcludeFromJacoco);
      AddAllThenAdd(extra, base, ExcludeFromJacoco);
      if plugin.isWithExceptionReplacement {
        r := Add(r, ReplacementWithExceptionNode);
        AddAllThenAdd(extra, base + [ExcludeFromJacoco], ReplacementWithExceptionNode);
      } else {
        r := Add(r, ReplacementNode);
        AddAllThenAdd(extra, base + [ExcludeFromJacoco], ReplacementNode);
      }
    }
  }

  /** The skipping loop: the imports of `sorted` that are printed, in order. */
  method KeepImports(sorted: seq<string>, importingPackage: string) returns (imports: seq<string>)
    ensures imports == Kept(sorted, importingPackage)
  {
    imports := [];
    for k := 0 to |sorted|
      invariant imports == Kept(sorted[..k], importingPackage)
    {
      assert sorted[..k + 1][..k] == sorted[..k];
      if !Elided(sorted[k], importingPackage) {
        imports := imports + [sorted[k]];
      }
    }
    assert sorted[..|sorted|] == sorted;
  }

  lemma CollectedFromStep(init: seq<string>, plugins: seq<GeneratedPlugin>, i: nat)
    requires i < |plugins|
    ensures CollectedFrom(init, plugins[..i + 1]) == AddAll(CollectedFrom(init, plugins[..i]), PluginImports(plugins[i]))
  {
    assert plugins[..i + 1][..i] == plugins[..i];
  }

  /** The collecting loop: every plugin's entries, in list order, added to `init`. */
  method AddEachPlugin(init: seq<string>, plugins: seq<GeneratedPlugin>) returns (extra: seq<string>)
    ensures extra == CollectedFrom(init, plugins)
  {
    extra := init;
    for i := 0 to |plugins|
      invariant extra == CollectedFrom(init, plugins[..i])
    {
      extra := AddPluginImports(extra, plugins[i]);
      CollectedFromStep(init, plugins, i);
    }
    assert plugins[..|plugins|] == plugins;
  }

  /** `createImports`: the baseline plus every plugin's entries, sorted, all but the elided ones printed. */
  method CreateImports(plugins: seq<GeneratedPlugin>, importingPackage: string) returns (imports: seq<string>)
    ensures imports == Emitted(plugins, importingPackage)
  {
    var extra := AddEachPlugin(Baseline, plugins);
    var sorted := SortBy(extra, Id);
    imports := KeepImports(sorted, importingPackage);
  }

  // ---------------------------------------------------------------------------------------------
  // What is imported

  /** Some plugin of `ps` contributes `x`. */
  ghost predicate Contributed(ps: seq<GeneratedPlugin>, x: string) {
    exists j :: 0 <= j < |ps| && x in PluginImports(ps[j])
  }

  lemma ContributedSplit(ps: seq<GeneratedPlugin>, x: string)
    requires ps != []
    ensures Contributed(ps, x) <==> Contributed(ps[..|ps| - 1], x) || x in PluginImports(ps[|ps| - 1])
  {
    var front := ps[..|ps| - 1];
    if Contributed(front, x) {
      var j :| 0 <= j < |front| && x in PluginImports(front[j]);
      assert ps[j] == front[j];
    }
    if Contributed(ps, x) {
      var j :| 0 <= j < |ps| && x in PluginImports(ps[j]);
      if j < |front| {
        assert front[j] == ps[j];
      }
    }
  }

  lemma {:induction false} CollectedFromMembership(init: seq<string>, ps: seq<GeneratedPlugin>, x: string)
    ensures x in CollectedFrom(init, ps) <==> x in init || Contributed(ps, x)
  {
    if ps != [] {
      CollectedFromMembership(init, ps[..|ps| - 1], x);
      ContributedSplit(ps, x);
    }
  }

  /** An import is collected exactly when it is in the baseline or some plugin contributes it. */
  lemma CollectedMembership(ps: seq<GeneratedPlugin>, x: string)
    ensures x in Collected(ps) <==> x in Baseline || exists j :: 0 <= j < |ps| && x in PluginImports(ps[j])
  {
    CollectedFromMembership(Baseline, ps, x);
    assert Contributed(ps, x) <==> exists j :: 0 <= j < |ps| && x in PluginImports(ps[j]);
  }

  /**
   * The set is exactly the seven fixed imports when, and only when, every name the plugins add is
   * already one of them.
   */
  lemma CollectedIsBaselineIff(ps: seq<GeneratedPlugin>)
    ensures Collected(ps) == Baseline <==>
            forall j, x :: 0 <= j < |ps| && x in PluginImports(ps[j]) ==> x in Baseline
  {
    var r := Collected(ps);
    if forall j, x :: 0 <= j < |ps| && x in PluginImports(ps[j]) ==> x in Baseline {
      if |r| > |Baseline| {
        var x := r[|Baseline|];
        CollectedMembership(ps, x);
        assert false;
      }
      assert r == r[..|Baseline|];
    } else {
      var j, x :| 0 <= j < |ps| && x in PluginImports(ps[j]) && x !in Baseline;
      CollectedMembership(ps, x);
    }
  }

  /** A strictly increasing sequence: sorted, and no import twice. */
  predicate StrictlySorted(s: seq<string>) {
    forall i, j :: 0 <= i < j < |s| ==> Leq(s[i], s[j]) && s[i] != s[j]
  }

  lemma {:induction false} NoDuplicatesCount(s: seq<string>, x: string)
    requires NoDuplicates(s)
    ensures multiset(s)[x] <= 1
    decreases |s|
  {
    if s != [] {
      assert s == [s[0]] + s[1..];
      NoDuplicatesCount(s[1..], x);
      if s[0] == x {
        assert x !in s[1..];
      }
    }
  }

  /** Reordering a duplicate-free sequence leaves it duplicate-free. */
  lemma PermutationNoDuplicates(s: seq<string>, r: seq<string>)
    requires NoDuplicates(s) && multiset(r) == multiset(s)
    ensures NoDuplicates(r)
  {
    forall i, j | 0 <= i < j < |r| ensures r[i] != r[j] {
      NoDuplicatesCount(s, r[i]);
      assert r == r[..i] + [r[i]] + r[i + 1..j] + [r[j]] + r[j + 1..];
      assert multiset(r)[r[i]] >= 1 + (if r[j] == r[i] then 1 else 0);
    }
  }

  lemma {:induction false} KeptStrictlySorted(s: seq<string>, importingPackage: string)
    requires StrictlySorted(s)
    ensures StrictlySorted(Kept(s, importingPackage))
  {
    if s != [] {
      var init := s[..|s| - 1];
      var last := s[|s| - 1];
      KeptStrictlySorted(init, importingPackage);
      var k := Kept(init, importingPackage);
      forall i | 0 <= i < |k| ensures Leq(k[i], last) && k[i] != last {
        assert k[i] in init;
        var m :| 0 <= m < |init| && init[m] == k[i];
        assert s[m] == k[i];
      }
    }
  }

  /** The printed imports are sorted and no import is printed twice. */
  lemma EmittedStrictlySorted(ps: seq<GeneratedPlugin>, importingPackage: string)
    ensures StrictlySorted(Emitted(ps, importingPackage))
  {
    var sorted := SortedImports(ps);
    SortBySorted(Collected(ps), Id);
    PermutationNoDuplicates(Collected(ps), sorted);
    KeptStrictlySorted(sorted, importingPackage);
  }

  /** An import is printed exactly when something contributes it and it is not elided. */
  lemma EmittedMembership(ps: seq<GeneratedPlugin>, importingPackage: string, x: string)
    ensures x in Emitted(ps, importingPackage) <==>
            (x in Baseline || exists j :: 0 <= j < |ps| && x in PluginImports(ps[j])) && !Elided(x, importingPackage)
  {
    CollectedMembership(ps, x);
    var c := Collected(ps);
    assert x in SortedImports(ps) <==> x in multiset(SortedImports(ps));
    assert x in c <==> x in multiset(c);
  }

  /** Every baseline import is printed unless the elision rule removes it. */
  lemma BaselineEmitted(ps: seq<GeneratedPlugin>, importingPackage: string, b: string)
    requires b in Baseline
    ensures b in Emitted(ps, importingPackage) <==> !Elided(b, importingPackage)
  {
    EmittedMembership(ps, importingPackage, b);
  }

  /** The import the superclass contributes never is one of the replacement imports. */
  lemma SuperclassImportNotReplacement(superclass: string)
    ensures GraphBuilderConf + superclass != ExcludeFromJacoco
    ensures GraphBuilderConf + superclass != ReplacementNode
    ensures GraphBuilderConf + superclass != ReplacementWithExceptionNode
  {
    assert (GraphBuilderConf + superclass)[19] == 'n' && ExcludeFromJacoco[19] == 'o';
    assert (GraphBuilderConf + superclass)[25] == 'g' && ReplacementNode[25] == 'P';
    assert ReplacementWithExceptionNode[25] == 'P';
  }

  /**
   * What one plugin contributes of the three replacement imports: `ExcludeFromJacocoGeneratedReport`
   * when it needs a replacement, and the node class chosen by `isWithExceptionReplacement`, unless
   * its own extra imports already name them.
   */
  lemma PluginReplacementImports(p: GeneratedPlugin)
    ensures ExcludeFromJacoco in PluginImports(p) <==> p.needsReplacement || ExcludeFromJacoco in p.extraImports
    ensures ReplacementWithExceptionNode in PluginImports(p) <==>
            (p.needsReplacement && p.isWithExceptionReplacement) || ReplacementWithExceptionNode in p.extraImports
    ensures ReplacementNode in PluginImports(p) <==>
            (p.needsReplacement && !p.isWithExceptionReplacement) || ReplacementNode in p.extraImports
  {
    SuperclassImportNotReplacement(p.pluginSuperclass);
    ReplacementImportsDistinct();
  }

  lemma ReplacementImportsDistinct()
    ensures ReplacementNode != ReplacementWithExceptionNode
    ensures ExcludeFromJacoco != ReplacementNode && ExcludeFromJacoco != ReplacementWithExceptionNode
  {
    assert ReplacementNode[42] == 'N' && ReplacementWithExceptionNode[42] == 'W';
    assert ExcludeFromJacoco[19] == 'o' && ReplacementNode[19] == 'n' && ReplacementWithExceptionNode[19] == 'n';
  }

  /** `ExcludeFromJacocoGeneratedReport` is imported exactly when some plugin needs a replacement or asks for it. */
  lemma ExcludeImportedIff(ps: seq<GeneratedPlugin>)
    ensures ExcludeFromJacoco in Collected(ps) <==>
            exists j :: 0 <= j < |ps| && (ps[j].needsReplacement || ExcludeFromJacoco in ps[j].extraImports)
  {
    CollectedMembership(ps, ExcludeFromJacoco);
    forall j | 0 <= j < |ps| {
      PluginReplacementImports(ps[j]);
    }
  }

  /**
   * `PluginReplacementWithExceptionNode` is imported exactly when some plugin needs a replacement
   * with an exception edge (or asks for the class itself).
   */
  lemma WithExceptionImportedIff(ps: seq<GeneratedPlugin>)
    ensures ReplacementWithExceptionNode in Collected(ps) <==>
            exists j :: 0 <= j < |ps| &&
              ((ps[j].needsReplacement && ps[j].isWithExceptionReplacement) ||
               ReplacementWithExceptionNode in ps[j].extraImports)
  {
    CollectedMembership(ps, ReplacementWithExceptionNode);
    forall j | 0 <= j < |ps| {
      PluginReplacementImports(ps[j]);
    }
  }

  /**
   * `PluginReplacementNode` is imported exactly when some plugin needs a replacement without an
   * exception edge (or asks for the class itself).
   */
  lemma ReplacementNodeImportedIff(ps: seq<GeneratedPlugin>)
    ensures ReplacementNode in Collected(ps) <==>
            exists j :: 0 <= j < |ps| &&
              ((ps[j].needsReplacement && !ps[j].isWithExceptionReplacement) ||
               ReplacementNode in ps[j].extraImports)
  {
    CollectedMembership(ps, ReplacementNode);
    forall j | 0 <= j < |ps| {
      PluginReplacementImports(ps[j]);
    }
  }

  /** A plugin that needs a replacement contributes `ExcludeFromJacocoGeneratedReport` and exactly one of the two nodes. */
  lemma ReplacementChoice(p: GeneratedPlugin)
    requires p.needsReplacement
    requires ReplacementNode !in p.extraImports && ReplacementWithExceptionNode !in p.extraImports
    ensures ExcludeFromJacoco in PluginImports(p)
    ensures ReplacementWithExceptionNode in PluginImports(p) <==> p.isWithExceptionReplacement
    ensures ReplacementNode in PluginImports(p) <==> !p.isWithExceptionReplacement
  {
    PluginReplacementImports(p);
  }

  // ---------------------------------------------------------------------------------------------
  // The elision rule

  /** The rule spelled out: some boundary, no earlier one, package part equal, class part not nested. */
  lemma ElidedIff(i: string, importingPackage: string)
    ensures Elided(i, importingPackage) <==>
            exists k :: IsBoundaryAt(i, k) && (forall m :: 0 <= m < k ==> !IsBoundaryAt(i, m))
                        && i[..k] == importingPackage && '.' !in i[k + 1..]
  {
    var f := FindBoundary(i, 0);
    if exists k :: IsBoundaryAt(i, k) && (forall m :: 0 <= m < k ==> !IsBoundaryAt(i, m))
                   && i[..k] == importingPackage && '.' !in i[k + 1..] {
      var k :| IsBoundaryAt(i, k) && (forall m :: 0 <= m < k ==> !IsBoundaryAt(i, m))
               && i[..k] == importingPackage && '.' !in i[k + 1..];
      assert f.Some?;
      assert !(f.value < k) && !(k < f.value);
    }
  }

  /** An import without a boundary is always printed. */
  lemma NoBoundaryKept(i: string, importingPackage: string)
    requires forall m :: !IsBoundaryAt(i, m)
    ensures !Elided(i, importingPackage)
  {
    assert FindBoundary(i, 0).None?;
  }

  /** A package name in which no `.` is followed by an upper-case letter. */
  ghost predicate PackageName(p: string) {
    forall m :: !IsBoundaryAt(p, m)
  }

  /** For `p.C...` with `p` a package name and `C` upper case, the boundary is the dot after `p`. */
  lemma BoundaryAfterPackage(p: string, c: string)
    requires PackageName(p) && |c| > 0 && 'A' <= c[0] <= 'Z'
    ensures FindBoundary(p + "." + c, 0) == Some(|p|)
  {
    var s := p + "." + c;
    assert s[|p|] == '.' && s[|p| + 1] == c[0];
    NoBoundaryInPackage(p, c);
    FirstBoundary(s, |p|);
  }

  lemma NoBoundaryInPackage(p: string, c: string)
    requires PackageName(p)
    ensures forall m :: 0 <= m < |p| ==> !IsBoundaryAt(p + "." + c, m)
  {
    var s := p + "." + c;
    forall m | 0 <= m < |p|
      ensures !IsBoundaryAt(s, m)
    {
      if m + 1 < |p| {
        assert s[m] == p[m] && s[m + 1] == p[m + 1];
        assert !IsBoundaryAt(p, m);
      } else {
        assert s[m + 1] == '.';
      }
    }
  }

  /** The search finds the first boundary. */
  lemma FirstBoundary(s: string, k: nat)
    requires IsBoundaryAt(s, k) && forall m :: 0 <= m < k ==> !IsBoundaryAt(s, m)
    ensures FindBoundary(s, 0) == Some(k)
  {
    var f := FindBoundary(s, 0);
    assert f.Some?;
    assert !(f.value < k) && !(k < f.value);
  }

  /** A class `p.c` is elided exactly when `p` is the importing package and `c` is top level. */
  lemma ElidedQualified(p: string, c: string, importingPackage: string)
    requires PackageName(p) && |c| > 0 && 'A' <= c[0] <= 'Z'
    ensures Elided(p + "." + c, importingPackage) <==> p == importingPackage && '.' !in c
  {
    BoundaryAfterPackage(p, c);
    var s := p + "." + c;
    assert s[..|p|] == p && s[|p| + 1..] == c;
  }

  /** A top-level class of the importing package `a.b` is not imported. */
  lemma ElidesOwnPackageClass()
    ensures Elided("a.b.Outer", "a.b")
  {
    assert PackageName("a.b");
    assert "a.b" + "." + "Outer" == "a.b.Outer";
    ElidedQualified("a.b", "Outer", "a.b");
  }

  /** A nested class of the importing package is imported. */
  lemma KeepsNestedClass()
    ensures !Elided("a.b.Outer.Inner", "a.b")
  {
    assert PackageName("a.b");
    assert "a.b" + "." + "Outer.Inner" == "a.b.Outer.Inner";
    ElidedQualified("a.b", "Outer.Inner", "a.b");
  }

  /** A class of a sibling package is imported. */
  lemma KeepsOtherPackageClass()
    ensures !Elided("a.c.Outer", "a.b")
  {
    assert PackageName("a.c");
    assert "a.c" + "." + "Outer" == "a.c.Outer";
    ElidedQualified("a.c", "Outer", "a.b");
  }

  /** A class of a subpackage is imported. */
  lemma KeepsSubpackageClass()
    ensures !Elided("a.b.c.Outer", "a.b")
  {
    assert PackageName("a.b.c");
    assert "a.b.c" + "." + "Outer" == "a.b.c.Outer";
    ElidedQualified("a.b.c", "Outer", "a.b");
  }
}
