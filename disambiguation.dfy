/**
 * `disambiguateNames` / `disambiguateWith`: the plugins of one generated factory are sorted by
 * name, and every member of a run of equal names is renamed to `name + "__" + id`, with one id
 * counter shared by the whole group.
 */
module Disambiguation {
  import opened Strings
  import opened Decimal
  import opened Sorting
  import opened Plugins

  /** The separator that makes a synthesized name stand out. */
  const Marker := "__"

  /** The name `genName` produces: the plugin's current name, the marker, the counter's value. */
  function GenName(name: string, id: nat): string {
    name + Marker + NatToString(id)
  }

  predicate HasMarker(name: string) {
    exists i :: 0 <= i < |name| - 1 && name[i] == '_' && name[i + 1] == '_'
  }

  function SortByName(plugins: seq<GeneratedPlugin>): seq<GeneratedPlugin> {
    SortBy(plugins, PluginName)
  }

  /**
   * Looking only at the first `n` plugins of `s`, plugin `j` has a neighbour with the same name.
   * With `n == |s|` this is the condition under which the scan renames plugin `j`.
   */
  predicate DupWithin(s: seq<GeneratedPlugin>, n: nat, j: nat)
    requires j < n <= |s|
  {
    || (0 < j && s[j - 1].pluginName == s[j].pluginName)
    || (j + 1 < n && s[j + 1].pluginName == s[j].pluginName)
  }

  /** How many of the first `k` plugins are renamed, considering the first `n`: the counter's value at `k`. */
  function RenamedBefore(s: seq<GeneratedPlugin>, n: nat, k: nat): nat
    requires k <= n <= |s|
  {
    if k == 0 then 0 else RenamedBefore(s, n, k - 1) + (if DupWithin(s, n, k - 1) then 1 else 0)
  }

  function FinalName(s: seq<GeneratedPlugin>, n: nat, j: nat): string
    requires j < n <= |s|
  {
    if DupWithin(s, n, j) then GenName(s[j].pluginName, RenamedBefore(s, n, j)) else s[j].pluginName
  }

  /** A sorted group after the renaming scan. */
  function Renamed(s: seq<GeneratedPlugin>): seq<GeneratedPlugin> {
    seq(|s|, j requires 0 <= j < |s| => s[j].(pluginName := FinalName(s, |s|, j)))
  }

  /** The group as `disambiguateNames` leaves it: sorted by the original names, then renamed. */
  function Disambiguated(plugins: seq<GeneratedPlugin>): seq<GeneratedPlugin> {
    Renamed(SortByName(plugins))
  }

  // ---------------------------------------------------------------------------------------------
  // The scan

  /**
   * `disambiguateNames(plugins)`: sort the list, then a single pass that keeps the head of the
   * current run of equal names (`current`, null once it has been renamed) and the run's name.
   */
  method DisambiguateNames(plugins: seq<GeneratedPlugin>) returns (result: seq<GeneratedPlugin>)
    requires |plugins| > 0
    ensures result == Disambiguated(plugins)
  {
    var sorted := SortByName(plugins);
    result := sorted;
    var nextId := 0;
    var current := 0;  // index of the pending head, -1 standing for null
    var currentName := result[0].pluginName;
    var i := 1;
    while i < |result|
      invariant 1 <= i <= |sorted| == |result|
      invariant currentName == sorted[i - 1].pluginName
      invariant current == i - 1 || current == -1
      invariant current == -1 <==> DupWithin(sorted, i, i - 1)
      invariant nextId == RenamedBefore(sorted, i, i)
      invariant ScannedUpTo(sorted, result, i)
    {
      var next := result[i];
      if currentName == next.pluginName {
        if current != -1 {
          StepRunHead(sorted, result, i, nextId);
          result := result[current := result[current].(pluginName := GenName(result[current].pluginName, nextId))];
          nextId := nextId + 1;
          current := -1;
        } else {
          StepRunTail(sorted, result, i, nextId);
        }
        result := result[i := next.(pluginName := GenName(next.pluginName, nextId))];
        nextId := nextId + 1;
      } else {
        StepNewName(sorted, result, i);
        current := i;
        currentName := next.pluginName;
      }
      i := i + 1;
    }
    assert result == Renamed(sorted);
  }

  /** After the scan has seen `n` plugins: the first `n` carry their final names, the rest are untouched. */
  ghost predicate ScannedUpTo(s: seq<GeneratedPlugin>, r: seq<GeneratedPlugin>, n: nat)
    requires n <= |s| == |r|
  {
    && (forall j {:trigger r[j]} :: 0 <= j < n ==> r[j] == s[j].(pluginName := FinalName(s, n, j)))
    && (forall j {:trigger r[j]} :: n <= j < |s| ==> r[j] == s[j])
  }

  /** Plugin `n` starts a new name: nothing is renamed and it becomes the pending head. */
  lemma StepNewName(s: seq<GeneratedPlugin>, r: seq<GeneratedPlugin>, n: nat)
    requires 1 <= n < |s| == |r| && ScannedUpTo(s, r, n)
    requires s[n - 1].pluginName != s[n].pluginName
    ensures ScannedUpTo(s, r, n + 1)
    ensures !DupWithin(s, n + 1, n)
    ensures RenamedBefore(s, n + 1, n + 1) == RenamedBefore(s, n, n)
  {
    WindowGrows(s, n);
    assert FinalName(s, n + 1, n - 1) == FinalName(s, n, n - 1);
    assert FinalName(s, n + 1, n) == s[n].pluginName;
    forall j | 0 <= j < n + 1
      ensures r[j] == s[j].(pluginName := FinalName(s, n + 1, j))
    {
      if j == n {
        assert r[n] == s[n];
      }
    }
  }

  /** Plugin `n` repeats the pending head's name: the head and plugin `n` are renamed, in that order. */
  lemma StepRunHead(s: seq<GeneratedPlugin>, r: seq<GeneratedPlugin>, n: nat, id: nat)
    requires 1 <= n < |s| == |r| && ScannedUpTo(s, r, n)
    requires s[n - 1].pluginName == s[n].pluginName && !DupWithin(s, n, n - 1)
    requires id == RenamedBefore(s, n, n)
    ensures var r' := r[n - 1 := r[n - 1].(pluginName := GenName(r[n - 1].pluginName, id))];
            ScannedUpTo(s, r'[n := r'[n].(pluginName := GenName(r'[n].pluginName, id + 1))], n + 1)
    ensures DupWithin(s, n + 1, n)
    ensures RenamedBefore(s, n + 1, n + 1) == id + 2
  {
    WindowGrows(s, n);
    var r' := r[n - 1 := r[n - 1].(pluginName := GenName(r[n - 1].pluginName, id))];
    var r'' := r'[n := r'[n].(pluginName := GenName(r'[n].pluginName, id + 1))];
    assert r[n - 1].pluginName == s[n - 1].pluginName;
    assert FinalName(s, n + 1, n - 1) == GenName(s[n - 1].pluginName, id);
    assert FinalName(s, n + 1, n) == GenName(s[n].pluginName, id + 1);
    forall j | 0 <= j < n + 1
      ensures r''[j] == s[j].(pluginName := FinalName(s, n + 1, j))
    {
      if j < n - 1 {
        assert r''[j] == r[j];
      }
    }
  }

  /** Plugin `n` continues a run whose head is already renamed: only plugin `n` is renamed. */
  lemma StepRunTail(s: seq<GeneratedPlugin>, r: seq<GeneratedPlugin>, n: nat, id: nat)
    requires 1 <= n < |s| == |r| && ScannedUpTo(s, r, n)
    requires s[n - 1].pluginName == s[n].pluginName && DupWithin(s, n, n - 1)
    requires id == RenamedBefore(s, n, n)
    ensures ScannedUpTo(s, r[n := r[n].(pluginName := GenName(r[n].pluginName, id))], n + 1)
    ensures DupWithin(s, n + 1, n)
    ensures RenamedBefore(s, n + 1, n + 1) == id + 1
  {
    WindowGrows(s, n);
    var r' := r[n := r[n].(pluginName := GenName(r[n].pluginName, id))];
    assert FinalName(s, n + 1, n - 1) == FinalName(s, n, n - 1);
    assert FinalName(s, n + 1, n) == GenName(s[n].pluginName, id);
    forall j | 0 <= j < n + 1
      ensures r'[j] == s[j].(pluginName := FinalName(s, n + 1, j))
    {
      if j < n {
        assert r'[j] == r[j];
      }
    }
  }

  /**
   * Growing the window from `n` to `n + 1`: the names before plugin `n - 1` stay final, and
   * whether plugins `n - 1` and `n` are renamed depends on whether plugin `n` repeats the name.
   */
  lemma WindowGrows(s: seq<GeneratedPlugin>, n: nat)
    requires 1 <= n < |s|
    ensures forall j :: 0 <= j < n - 1 ==> FinalName(s, n + 1, j) == FinalName(s, n, j)
    ensures RenamedBefore(s, n + 1, n - 1) == RenamedBefore(s, n, n - 1)
    ensures DupWithin(s, n + 1, n) <==> s[n - 1].pluginName == s[n].pluginName
    ensures DupWithin(s, n + 1, n - 1) <==> DupWithin(s, n, n - 1) || s[n - 1].pluginName == s[n].pluginName
  {
    forall j | 0 <= j < n
      ensures j < n - 1 ==> FinalName(s, n + 1, j) == FinalName(s, n, j)
      ensures RenamedBefore(s, n + 1, j) == RenamedBefore(s, n, j)
    {
      RenamedBeforeStable(s, n, j);
    }
  }

  /** Growing the window from `n` to `n + 1` changes nothing before plugin `n - 1`. */
  lemma {:induction false} RenamedBeforeStable(s: seq<GeneratedPlugin>, n: nat, k: nat)
    requires k < n < |s|
    ensures RenamedBefore(s, n + 1, k) == RenamedBefore(s, n, k)
    decreases k
  {
    if k > 0 {
      RenamedBeforeStable(s, n, k - 1);
    }
  }

  // ---------------------------------------------------------------------------------------------
  // What the renaming promises

  /** In a list sorted by name, plugin `j` is in a run exactly when some other plugin has its name. */
  lemma DupWithinIffRepeated(s: seq<GeneratedPlugin>, j: nat)
    requires SortedBy(s, PluginName) && j < |s|
    ensures DupWithin(s, |s|, j) <==> exists m :: 0 <= m < |s| && m != j && s[m].pluginName == s[j].pluginName
  {
    if exists m :: 0 <= m < |s| && m != j && s[m].pluginName == s[j].pluginName {
      var m :| 0 <= m < |s| && m != j && s[m].pluginName == s[j].pluginName;
      if m < j {
        assert Leq(PluginName(s[m]), PluginName(s[j - 1])) by {
          if m < j - 1 {
            assert Leq(PluginName(s[m]), PluginName(s[j - 1]));
          } else {
            LeqReflexive(s[m].pluginName);
          }
        }
        assert Leq(PluginName(s[j - 1]), PluginName(s[j]));
        LeqAntisymmetric(s[j - 1].pluginName, s[j].pluginName);
      } else {
        assert Leq(PluginName(s[j + 1]), PluginName(s[m])) by {
          if j + 1 < m {
            assert Leq(PluginName(s[j + 1]), PluginName(s[m]));
          } else {
            LeqReflexive(s[m].pluginName);
          }
        }
        assert Leq(PluginName(s[j]), PluginName(s[j + 1]));
        LeqAntisymmetric(s[j + 1].pluginName, s[j].pluginName);
      }
    }
  }

  /** The counter increases strictly along the scan at every renamed plugin. */
  lemma {:induction false} RenamedBeforeIncreases(s: seq<GeneratedPlugin>, n: nat, i: nat, j: nat)
    requires i < j <= n <= |s| && DupWithin(s, n, i)
    ensures RenamedBefore(s, n, i) < RenamedBefore(s, n, j)
    decreases j
  {
    if j > i + 1 {
      RenamedBeforeIncreases(s, n, i, j - 1);
    }
  }

  /** Every counter value below the final count is used by some renamed plugin. */
  lemma {:induction false} RenamedBeforeDense(s: seq<GeneratedPlugin>, n: nat, m: nat, k: nat)
    requires m <= n <= |s| && k < RenamedBefore(s, n, m)
    ensures exists j :: 0 <= j < m && DupWithin(s, n, j) && RenamedBefore(s, n, j) == k
    decreases m
  {
    if k < RenamedBefore(s, n, m - 1) {
      RenamedBeforeDense(s, n, m - 1, k);
    } else {
      assert DupWithin(s, n, m - 1) && RenamedBefore(s, n, m - 1) == k;
    }
  }

  /**
   * The group after `disambiguateNames` is the input sorted by the original names (a permutation
   * of it), and only names differ from the sorted list.
   */
  lemma DisambiguatedIsSortedPermutation(plugins: seq<GeneratedPlugin>)
    ensures var s := SortByName(plugins);
            && multiset(s) == multiset(plugins)
            && SortedBy(s, PluginName)
            && |Disambiguated(plugins)| == |plugins|
            && forall j :: 0 <= j < |s| ==>
                 Disambiguated(plugins)[j] == s[j].(pluginName := Disambiguated(plugins)[j].pluginName)
  {
    SortBySorted(plugins, PluginName);
  }

  /**
   * A plugin whose name occurs once in the group keeps it; one whose name occurs twice or more is
   * renamed once, to its original name, the marker and its position in the counter's sequence.
   */
  lemma RenamedExactlyWhenRepeated(plugins: seq<GeneratedPlugin>, j: nat)
    requires j < |plugins|
    ensures var s := SortByName(plugins);
            var r := Disambiguated(plugins);
            && (KeyCount(plugins, PluginName, s[j].pluginName) == 1 ==> r[j] == s[j])
            && (KeyCount(plugins, PluginName, s[j].pluginName) >= 2 ==>
                  r[j] == s[j].(pluginName := GenName(s[j].pluginName, RenamedBefore(s, |s|, j))))
  {
    var s := SortByName(plugins);
    SortBySorted(plugins, PluginName);
    SortByKeyCount(plugins, PluginName, s[j].pluginName);
    KeyCountAtLeastTwo(s, PluginName, j);
    KeyCountPositive(s, PluginName, j);
    DupWithinIffRepeated(s, j);
  }

  /** The ids the scan hands out to a sorted group `s`. */
  function IdsUsed(s: seq<GeneratedPlugin>): set<nat> {
    set j | 0 <= j < |s| && DupWithin(s, |s|, j) :: RenamedBefore(s, |s|, j)
  }

  /**
   * The ids handed out start at 0, are distinct, increase in scan order, and are exactly
   * 0 .. total-1 where total is the number of renamed plugins: the counter is never reset.
   */
  lemma SuffixesCountUp(plugins: seq<GeneratedPlugin>)
    ensures var s := SortByName(plugins);
            var n := |s|;
            && (forall i, j :: 0 <= i < j < n && DupWithin(s, n, i) && DupWithin(s, n, j) ==>
                  RenamedBefore(s, n, i) < RenamedBefore(s, n, j))
            && (forall j :: 0 <= j < n && DupWithin(s, n, j) ==> RenamedBefore(s, n, j) < RenamedBefore(s, n, n))
            && (forall k :: k in IdsUsed(s) <==> 0 <= k < RenamedBefore(s, n, n))
  {
    var s := SortByName(plugins);
    var n := |s|;
    forall i, j | 0 <= i < j < n && DupWithin(s, n, i) && DupWithin(s, n, j)
      ensures RenamedBefore(s, n, i) < RenamedBefore(s, n, j)
    {
      RenamedBeforeIncreases(s, n, i, j);
    }
    forall j | 0 <= j < n && DupWithin(s, n, j)
      ensures RenamedBefore(s, n, j) < RenamedBefore(s, n, n)
    {
      RenamedBeforeIncreases(s, n, j, n);
    }
    forall k | 0 <= k < RenamedBefore(s, n, n) ensures k in IdsUsed(s) {
      RenamedBeforeDense(s, n, n, k);
    }
  }

  lemma GenNameSuffix(name: string, id: nat)
    ensures AfterLast(GenName(name, id), '_') == NatToString(id)
    ensures HasMarker(GenName(name, id))
  {
    var d := NatToString(id);
    assert '_' !in d by {
      forall i | 0 <= i < |d| ensures d[i] != '_' {
        assert IsDigit(d[i]);
      }
    }
    assert GenName(name, id) == (name + "_") + ['_'] + d by {
      assert Marker == "_" + ['_'];
    }
    AfterLastOfJoin(name + "_", '_', d);
    GenNameMarked(name, id);
  }

  lemma GenNameMarked(name: string, id: nat)
    ensures HasMarker(GenName(name, id))
  {
    var g := GenName(name, id);
    assert g[|name|] == '_' && g[|name| + 1] == '_';
  }

  /** Two generated names with different ids differ, whatever the names they extend. */
  lemma GenNameDistinct(a: string, i: nat, b: string, j: nat)
    requires i != j
    ensures GenName(a, i) != GenName(b, j)
  {
    GenNameSuffix(a, i);
    GenNameSuffix(b, j);
    ParseNatToString(i);
    ParseNatToString(j);
  }

  /**
   * If no original name contains the marker, the names after disambiguation are pairwise
   * distinct. (Without that premise they need not be: see `MarkerInNameCollides`.)
   */
  lemma DisambiguatedNamesDistinct(plugins: seq<GeneratedPlugin>)
    requires forall p :: p in plugins ==> !HasMarker(p.pluginName)
    ensures forall i, j :: 0 <= i < j < |Disambiguated(plugins)| ==>
              Disambiguated(plugins)[i].pluginName != Disambiguated(plugins)[j].pluginName
  {
    var s := SortByName(plugins);
    var r := Disambiguated(plugins);
    var n := |s|;
    SortBySorted(plugins, PluginName);
    forall i, j | 0 <= i < j < |r| ensures r[i].pluginName != r[j].pluginName {
      assert s[i] in multiset(plugins) && s[j] in multiset(plugins);
      var di, dj := DupWithin(s, n, i), DupWithin(s, n, j);
      if !di && !dj {
        DupWithinIffRepeated(s, i);
      } else if di && dj {
        RenamedBeforeIncreases(s, n, i, j);
        GenNameDistinct(s[i].pluginName, RenamedBefore(s, n, i), s[j].pluginName, RenamedBefore(s, n, j));
      } else if di {
        GenNameSuffix(s[i].pluginName, RenamedBefore(s, n, i));
      } else {
        GenNameSuffix(s[j].pluginName, RenamedBefore(s, n, j));
      }
    }
  }

  // ---------------------------------------------------------------------------------------------
  // Worked examples

  function Names(plugins: seq<GeneratedPlugin>): seq<string> {
    seq(|plugins|, j requires 0 <= j < |plugins| => plugins[j].pluginName)
  }

  /** A plugin that differs from the others of the examples only by its name. */
  function Named(m: Elements.Element, name: string): GeneratedPlugin {
    GeneratedPlugin(m, name, "GeneratedInvocationPlugin", [], false, false)
  }

  lemma SortByNameCons(x: GeneratedPlugin, rest: seq<GeneratedPlugin>)
    ensures SortByName([x] + rest) == Insert(x, SortByName(rest), PluginName)
  {
    assert ([x] + rest)[1..] == rest;
  }

  lemma InsertAfter(x: GeneratedPlugin, y: GeneratedPlugin, rest: seq<GeneratedPlugin>)
    requires !Leq(x.pluginName, y.pluginName)
    ensures Insert(x, [y] + rest, PluginName) == [y] + Insert(x, rest, PluginName)
  {
    assert ([y] + rest)[1..] == rest;
  }

  lemma InsertInFront(x: GeneratedPlugin, y: GeneratedPlugin, rest: seq<GeneratedPlugin>)
    requires Leq(x.pluginName, y.pluginName)
    ensures Insert(x, [y] + rest, PluginName) == [x, y] + rest
  {
  }

  lemma SortedPairSwapped(x: GeneratedPlugin, y: GeneratedPlugin)
    requires !Leq(x.pluginName, y.pluginName)
    ensures SortByName([x, y]) == [y, x]
  {
    assert SortByName([y]) == [y];
    SortByNameCons(x, [y]);
    InsertAfter(x, y, []);
    assert [x] + [y] == [x, y];
  }

  lemma TwoFoosSorted(foo: GeneratedPlugin, baz: GeneratedPlugin)
    requires !Leq(foo.pluginName, baz.pluginName)
    ensures SortByName([foo, foo, baz]) == [baz, foo, foo]
  {
    calc {
      SortByName([foo, foo, baz]);
      { assert [foo, foo, baz] == [foo] + [foo, baz]; SortByNameCons(foo, [foo, baz]); }
      Insert(foo, SortByName([foo, baz]), PluginName);
      { SortedPairSwapped(foo, baz); assert [baz, foo] == [baz] + [foo]; }
      Insert(foo, [baz] + [foo], PluginName);
      { InsertAfter(foo, baz, [foo]); }
      [baz] + Insert(foo, [foo], PluginName);
      { LeqReflexive(foo.pluginName); InsertInFront(foo, foo, []); assert [foo] == [foo] + []; }
      [baz] + [foo, foo];
    }
  }

  lemma RenamedBazFooFoo(baz: GeneratedPlugin, foo: GeneratedPlugin)
    requires foo.pluginName == "foo" && baz.pluginName == "baz"
    ensures Names(Renamed([baz, foo, foo])) == ["baz", "foo__0", "foo__1"]
  {
    var s := [baz, foo, foo];
    assert NatToString(0) == "0" && NatToString(1) == "1";
    assert !DupWithin(s, 3, 0) && DupWithin(s, 3, 1) && DupWithin(s, 3, 2);
    assert RenamedBefore(s, 3, 1) == 0;
    assert RenamedBefore(s, 3, 2) == 1;
    var r := Renamed(s);
    assert r[0].pluginName == "baz";
    assert r[1].pluginName == GenName("foo", 0) == "foo__0";
    assert r[2].pluginName == GenName("foo", 1) == "foo__1";
  }

  /** `[foo, foo, baz]` becomes `baz, foo__0, foo__1`: sorted by name, then the repeated name numbered. */
  lemma TwoFoos(m: Elements.Element)
    ensures Names(Disambiguated([Named(m, "foo"), Named(m, "foo"), Named(m, "baz")]))
            == ["baz", "foo__0", "foo__1"]
  {
    assert !Leq("foo", "baz");
    TwoFoosSorted(Named(m, "foo"), Named(m, "baz"));
    RenamedBazFooFoo(Named(m, "baz"), Named(m, "foo"));
  }

  /**
   * In a sorted group with two runs, `a, a, b, b`, the second run continues the numbering of the
   * first: the counter is shared by the whole group.
   */
  lemma RenamedTwoRuns(a: GeneratedPlugin, b: GeneratedPlugin)
    requires a.pluginName != b.pluginName
    ensures Names(Renamed([a, a, b, b]))
            == [GenName(a.pluginName, 0), GenName(a.pluginName, 1), GenName(b.pluginName, 2), GenName(b.pluginName, 3)]
  {
    var s := [a, a, b, b];
    assert DupWithin(s, 4, 0) && DupWithin(s, 4, 1) && DupWithin(s, 4, 2) && DupWithin(s, 4, 3);
    assert RenamedBefore(s, 4, 0) == 0;
    assert RenamedBefore(s, 4, 1) == 1;
    assert RenamedBefore(s, 4, 2) == 2;
    assert RenamedBefore(s, 4, 3) == 3;
  }

  /**
   * An original name that already has the shape of a generated one can collide with a generated
   * name: `[foo, foo, foo__0]` becomes `foo__0, foo__1, foo__0`.
   */
  lemma MarkerInNameCollides(m: Elements.Element)
    ensures Names(Disambiguated([Named(m, "foo"), Named(m, "foo"), Named(m, "foo__0")]))
            == ["foo__0", "foo__1", "foo__0"]
  {
    var foo, foo0 := Named(m, "foo"), Named(m, "foo__0");
    FooFooMarkedSorted(foo, foo0);
    RenamedFooFooMarked(foo, foo0);
  }

  lemma FooFooMarkedSorted(foo: GeneratedPlugin, foo0: GeneratedPlugin)
    requires foo.pluginName == "foo" && foo0.pluginName == "foo__0"
    ensures SortByName([foo, foo, foo0]) == [foo, foo, foo0]
  {
    assert Leq("foo", "foo") && Leq("foo", "foo__0");
    assert SortByName([foo0]) == [foo0];
    assert SortByName([foo, foo0]) == [foo, foo0] by {
      assert [foo, foo0][1..] == [foo0];
    }
    var s := [foo, foo, foo0];
    assert s[1..] == [foo, foo0];
  }

  lemma RenamedFooFooMarked(foo: GeneratedPlugin, foo0: GeneratedPlugin)
    requires foo.pluginName == "foo" && foo0.pluginName == "foo__0"
    ensures Names(Renamed([foo, foo, foo0])) == ["foo__0", "foo__1", "foo__0"]
  {
    var s := [foo, foo, foo0];
    assert NatToString(0) == "0" && NatToString(1) == "1";
    assert DupWithin(s, 3, 0) && DupWithin(s, 3, 1) && !DupWithin(s, 3, 2);
    assert RenamedBefore(s, 3, 0) == 0 && RenamedBefore(s, 3, 1) == 1;
    var r := Renamed(s);
    assert r[0].pluginName == GenName("foo", 0) == "foo__0";
    assert r[1].pluginName == GenName("foo", 1) == "foo__1";
    assert r[2].pluginName == "foo__0";
  }
}
