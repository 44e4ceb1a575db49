/**
 * The part of the annotation-processing element model the generator uses: every element knows
 * its kind, its name and the element that encloses it. A package's `name` is its qualified name
 * (`jdk.graal.compiler.hotspot.amd64`); any other element's `name` is its simple name.
 */
module Elements {
  import opened Wrappers

  /** Only the distinction "package or not" matters to the generator. */
  datatype ElementKind = PackageKind | ModuleKind | ClassKind | MethodKind | OtherKind

  datatype Element = Element(kind: ElementKind, name: string, enclosing: Option<Element>)

  /** The walk in `getTopLevelClass` stops at an element whose enclosing element is a package or null. */
  predicate IsTopLevel(e: Element) {
    e.enclosing.None? || e.enclosing.value.kind == PackageKind
  }

  /** `up` is `e` itself or one of the elements enclosing it. */
  predicate OnChain(e: Element, up: Element)
    decreases e
  {
    e == up || (e.enclosing.Some? && OnChain(e.enclosing.value, up))
  }

  /** The first element on the chain from `e` upward whose enclosing element is a package or null. */
  function TopLevel(e: Element): (r: Element)
    ensures IsTopLevel(r) && OnChain(e, r)
    decreases e
  {
    if IsTopLevel(e) then e else TopLevel(e.enclosing.value)
  }

  /** No top-level element lies strictly between `e` and `TopLevel(e)`: the walk stops at the first. */
  lemma {:induction false} TopLevelIsLowest(e: Element, up: Element)
    requires OnChain(e, up) && IsTopLevel(up)
    ensures OnChain(TopLevel(e), up)
    decreases e
  {
    if e != up && !IsTopLevel(e) {
      TopLevelIsLowest(e.enclosing.value, up);
    }
  }

  /** Every element below a class shares that class's top-level element: members of one class group together. */
  lemma {:induction false} TopLevelAlongChain(e: Element, up: Element)
    requires OnChain(e, up) && OnChain(up, TopLevel(e))
    ensures TopLevel(up) == TopLevel(e)
    decreases e
  {
    if e != up {
      assert !IsTopLevel(e) by {
        if IsTopLevel(e) {
          OnChainAntisymmetric(e, up);
        }
      }
      TopLevelAlongChain(e.enclosing.value, up);
    }
  }

  lemma {:induction false} OnChainSmaller(e: Element, up: Element)
    requires OnChain(e, up) && e != up
    ensures up < e
    decreases e
  {
    if e.enclosing.value != up {
      OnChainSmaller(e.enclosing.value, up);
    }
  }

  lemma OnChainAntisymmetric(e: Element, up: Element)
    requires OnChain(e, up) && OnChain(up, e)
    ensures e == up
  {
    if e != up {
      OnChainSmaller(e, up);
      OnChainSmaller(up, e);
    }
  }

  /** `getTopLevelClass`: climbs the enclosing chain until the next step up is a package or null. */
  method GetTopLevelClass(element: Element) returns (prev: Element)
    ensures prev == TopLevel(element)
    ensures IsTopLevel(prev) && OnChain(element, prev)
  {
    prev := element;
    var enclosing := element.enclosing;
    while enclosing.Some? && enclosing.value.kind != PackageKind
      invariant enclosing == prev.enclosing
      invariant TopLevel(prev) == TopLevel(element)
      decreases prev
    {
      prev := enclosing.value;
      enclosing := prev.enclosing;
    }
  }
}
