/**
 * `PluginGenerator`: collects the plugins of one round in a map keyed by the top-level class
 * that declares each intrinsic method, keeps the keys in first-registration order (a
 * `LinkedHashMap`), and generates one factory per key.
 */
module Generator {
  import opened Wrappers
  import opened Elements
  import opened Plugins
  import opened Disambiguation
  import opened PluginFactory

  /** The top-level classes owning the plugins `ps`, each once, in order of first appearance. */
  function Owners(ps: seq<GeneratedPlugin>): (r: seq<Element>)
    ensures forall i, j :: 0 <= i < j < |r| ==> r[i] != r[j]
    ensures forall k :: 0 <= k < |ps| ==> Owner(ps[k]) in r
    ensures forall e :: e in r ==> exists k :: 0 <= k < |ps| && Owner(ps[k]) == e
  {
    if ps == [] then []
    else
      var front := ps[..|ps| - 1];
      var r := Owners(front);
      assert forall k :: 0 <= k < |front| ==> front[k] == ps[k];
      if Owner(ps[|ps| - 1]) in r then r else r + [Owner(ps[|ps| - 1])]
  }

  /** The plugins of `ps` that `owner` owns, in the order they were added. */
  function OwnedBy(ps: seq<GeneratedPlugin>, owner: Element): (r: seq<GeneratedPlugin>)
    ensures forall p :: p in r ==> p in ps && Owner(p) == owner
  {
    if ps == [] then []
    else OwnedBy(ps[..|ps| - 1], owner) + (if Owner(ps[|ps| - 1]) == owner then [ps[|ps| - 1]] else [])
  }

  /** A class has a non-empty list exactly when it owns one of the plugins. */
  lemma {:induction false} OwnedByNonEmpty(ps: seq<GeneratedPlugin>, owner: Element)
    ensures OwnedBy(ps, owner) != [] <==> owner in Owners(ps)
  {
    if ps != [] {
      OwnedByNonEmpty(ps[..|ps| - 1], owner);
    }
  }

  /** Every plugin lands in its owner's list. */
  lemma {:induction false} OwnedByComplete(ps: seq<GeneratedPlugin>, k: nat)
    requires k < |ps|
    ensures ps[k] in OwnedBy(ps, Owner(ps[k]))
  {
    var front := ps[..|ps| - 1];
    if k < |ps| - 1 {
      OwnedByComplete(front, k);
      assert front[k] == ps[k];
    }
  }

  /** The lists partition the plugins: the list lengths add up to the number of plugins. */
  lemma {:induction false} OwnedByPartition(ps: seq<GeneratedPlugin>)
    ensures TotalOwned(ps, Owners(ps)) == |ps|
  {
    if ps != [] {
      var front := ps[..|ps| - 1];
      var last := ps[|ps| - 1];
      var owners := Owners(front);
      assert TotalOwned(ps, owners) == |front| + (if Owner(last) in owners then 1 else 0) by {
        assert ps == front + [last];
        OwnedByPartition(front);
        TotalOwnedStep(front, last, owners);
      }
      if Owner(last) !in owners {
        assert OwnedBy(ps, Owner(last)) == [last] by {
          OwnedByNonEmpty(front, Owner(last));
        }
        TotalOwnedAppend(ps, owners, Owner(last));
      }
    }
  }

  /** The sum of the lengths of the lists of `owners`. */
  function TotalOwned(ps: seq<GeneratedPlugin>, owners: seq<Element>): nat {
    if owners == [] then 0
    else TotalOwned(ps, owners[..|owners| - 1]) + |OwnedBy(ps, owners[|owners| - 1])|
  }

  lemma {:induction false} TotalOwnedAppend(ps: seq<GeneratedPlugin>, owners: seq<Element>, e: Element)
    ensures TotalOwned(ps, owners + [e]) == TotalOwned(ps, owners) + |OwnedBy(ps, e)|
  {
    assert (owners + [e])[..|owners|] == owners;
  }

  /** Adding one plugin adds one to the total over a list of distinct owners that contains its owner. */
  lemma {:induction false} TotalOwnedStep(front: seq<GeneratedPlugin>, last: GeneratedPlugin, owners: seq<Element>)
    requires forall i, j :: 0 <= i < j < |owners| ==> owners[i] != owners[j]
    ensures TotalOwned(front + [last], owners)
         == TotalOwned(front, owners) + (if Owner(last) in owners then 1 else 0)
    decreases |owners|
  {
    var ps := front + [last];
    assert ps[..|ps| - 1] == front;
    if owners != [] {
      var rest := owners[..|owners| - 1];
      TotalOwnedStep(front, last, rest);
      assert Owner(last) in owners <==> Owner(last) in rest || Owner(last) == owners[|owners| - 1];
      assert owners[|owners| - 1] !in rest by {
        forall i | 0 <= i < |rest|
          ensures rest[i] != owners[|owners| - 1]
        {
          assert rest[i] == owners[i];
        }
      }
    }
  }

  /**
   * Two plugins whose intrinsic methods lie below the same class, itself below their top-level
   * class, get the same key: every member of a class goes to that class's factory.
   */
  lemma SameClassSameOwner(p: GeneratedPlugin, q: GeneratedPlugin, c: Element)
    requires OnChain(p.intrinsicMethod, c) && OnChain(c, Owner(p))
    requires OnChain(q.intrinsicMethod, c) && OnChain(c, Owner(q))
    ensures Owner(p) == Owner(q)
  {
    TopLevelAlongChain(p.intrinsicMethod, c);
    TopLevelAlongChain(q.intrinsicMethod, c);
  }

  /** Every owner is a top-level element. */
  lemma OwnersTopLevel(ps: seq<GeneratedPlugin>)
    ensures forall e :: e in Owners(ps) ==> IsTopLevel(e)
  {
    forall e | e in Owners(ps)
      ensures IsTopLevel(e)
    {
      var k :| 0 <= k < |ps| && Owner(ps[k]) == e;
    }
  }

  /**
   * The state of the generator after the plugins `added`: the keys are the owners in order of
   * first appearance, and each key's list holds the plugins it owns, in order.
   */
  ghost predicate Grouped(added: seq<GeneratedPlugin>, order: seq<Element>, plugins: map<Element, seq<GeneratedPlugin>>) {
    && order == Owners(added)
    && (forall e :: e in plugins <==> e in order)
    && (forall e :: e in plugins ==> plugins[e] == OwnedBy(added, e))
  }

  /** What `addPlugin` does to the key order. */
  function AddedOrder(order: seq<Element>, plugins: map<Element, seq<GeneratedPlugin>>, owner: Element): seq<Element> {
    if owner in plugins then order else order + [owner]
  }

  /** What `addPlugin` does to the map. */
  function AddedPlugins(plugins: map<Element, seq<GeneratedPlugin>>, owner: Element, p: GeneratedPlugin)
    : map<Element, seq<GeneratedPlugin>>
  {
    plugins[owner := (if owner in plugins then plugins[owner] else []) + [p]]
  }

  /** Adding a plugin keeps the map grouped. */
  lemma GroupedStep(added: seq<GeneratedPlugin>, order: seq<Element>, plugins: map<Element, seq<GeneratedPlugin>>,
                    p: GeneratedPlugin)
    requires Grouped(added, order, plugins)
    ensures Grouped(added + [p], AddedOrder(order, plugins, Owner(p)), AddedPlugins(plugins, Owner(p), p))
  {
    var ps := added + [p];
    assert ps[..|ps| - 1] == added;
    OwnedByNonEmpty(added, Owner(p));
    var plugins' := AddedPlugins(plugins, Owner(p), p);
    forall e | e in plugins'
      ensures plugins'[e] == OwnedBy(ps, e)
    {
    }
  }

  /** The entry at position `i` of a grouped map: a top-level class with a non-empty list. */
  lemma GroupAt(added: seq<GeneratedPlugin>, order: seq<Element>, plugins: map<Element, seq<GeneratedPlugin>>, i: nat)
    requires Grouped(added, order, plugins) && i < |order|
    ensures order[i] in plugins && plugins[order[i]] == OwnedBy(added, order[i]) && |plugins[order[i]]| > 0
    ensures IsTopLevel(order[i])
  {
    OwnersTopLevel(added);
    OwnedByNonEmpty(added, order[i]);
  }

  class PluginGenerator {
    /** The keys of the map, in the order they were inserted. */
    var order: seq<Element>
    /** The map from top-level class to its plugins. */
    var plugins: map<Element, seq<GeneratedPlugin>>
    /** Every plugin added so far, in order. */
    ghost var added: seq<GeneratedPlugin>

    ghost predicate Valid()
      reads this
    {
      Grouped(added, order, plugins)
    }

    constructor()
      ensures Valid() && added == [] && order == [] && plugins == map[]
    {
      order := [];
      plugins := map[];
      added := [];
    }

    /**
     * `addPlugin`: appends the plugin to the list of its top-level class, creating the list (and
     * a new key after all existing ones) when the class is new.
     */
    method AddPlugin(plugin: GeneratedPlugin)
      requires Valid()
      modifies this
      ensures Valid() && added == old(added) + [plugin]
      ensures var owner := Owner(plugin);
              && plugins == AddedPlugins(old(plugins), owner, plugin)
              && order == AddedOrder(old(order), old(plugins), owner)
    {
      var topLevel := GetTopLevelClass(plugin.intrinsicMethod);
      var list: seq<GeneratedPlugin>;
      if topLevel in plugins {
        list := plugins[topLevel];
      } else {
        list := [];
        order := order + [topLevel];
      }
      GroupedStep(added, old(order), plugins, plugin);
      plugins := plugins[topLevel := list + [plugin]];
      added := added + [plugin];
    }

    /**
     * `generateAll`: for each key in order, the group is disambiguated and its factory created.
     * `sourceFileOpened[i]` says whether the filer could open the i-th factory's source file.
     * A top-level class outside any package has no factory package (the cast in
     * `createPluginFactory` yields null), so every key must have an enclosing package.
     */
    method GenerateAll(sourceFileOpened: seq<bool>) returns (outputs: seq<FactoryOutput>)
      requires Valid()
      requires |sourceFileOpened| == |order|
      requires forall i :: 0 <= i < |order| ==> order[i].enclosing.Some?
      ensures |outputs| == |order|
      ensures forall i :: 0 <= i < |order| ==>
                outputs[i] == FactoryOutputOf(order[i], Disambiguated(plugins[order[i]]), sourceFileOpened[i])
    {
      var owners, groups := order, plugins;
      outputs := [];
      for i := 0 to |owners|
        invariant |outputs| == i
        invariant forall j :: 0 <= j < i ==>
                    outputs[j] == FactoryOutputOf(owners[j], Disambiguated(groups[owners[j]]), sourceFileOpened[j])
      {
        GroupAt(added, order, plugins, i);
        var output := GenerateFactory(owners[i], groups[owners[i]], sourceFileOpened[i]);
        outputs := outputs + [output];
      }
    }

    /**
     * What `generateAll` writes: each factory declares and registers its class's plugins, sorted
     * and renamed, and nothing else, and every plugin added is among them in its owner's factory.
     */
    lemma GeneratedContents(sourceFileOpened: seq<bool>, outputs: seq<FactoryOutput>, i: nat)
      requires Valid()
      requires |sourceFileOpened| == |outputs| == |order| && i < |order|
      requires order[i].enclosing.Some? && sourceFileOpened[i]
      requires outputs[i] == FactoryOutputOf(order[i], Disambiguated(plugins[order[i]]), sourceFileOpened[i])
      ensures var group := OwnedBy(added, order[i]);
              && BlocksOf(outputs[i].source.value) == Disambiguated(group)
              && RegisteredOf(outputs[i].source.value) == Disambiguated(group)
              && |Disambiguated(group)| == |group| > 0
              && forall k :: 0 <= k < |added| && Owner(added[k]) == order[i] ==> added[k] in group
    {
      var owner := order[i];
      var group := OwnedBy(added, owner);
      GroupAt(added, order, plugins, i);
      FactorySourceReadBack(owner.enclosing.value, owner, Disambiguated(group));
      DisambiguatedIsSortedPermutation(group);
      OwnedByNonEmpty(added, owner);
      forall k | 0 <= k < |added| && Owner(added[k]) == owner
        ensures added[k] in group
      {
        OwnedByComplete(added, k);
      }
    }
  }

  /** One iteration of `generateAll`: the group sorted and renamed, then its factory created. */
  method GenerateFactory(owner: Element, group: seq<GeneratedPlugin>, sourceFileOpened: bool)
    returns (output: FactoryOutput)
    requires |group| > 0 && owner.enclosing.Some? && owner.enclosing.value.kind == PackageKind
    ensures output == FactoryOutputOf(owner, Disambiguated(group), sourceFileOpened)
  {
    var renamed := DisambiguateNames(group);
    output := CreatePluginFactory(owner, renamed, sourceFileOpened);
  }
}
