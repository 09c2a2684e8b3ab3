/**
 * The part of the Component base class that Mesh relies on: dirt flags and the
 * dependents list. The Component source is not part of this model, so both are
 * ASSUMPTIONS: dirt is a set of flags that addDirt unions into and hasDirt tests
 * for inclusion, and addDependent appends a component that is not yet registered.
 */
module Component {

  /** The ComponentDirt flags; a dirt mask is the set of flags it holds. */
  datatype DirtFlag = Path | Vertices | Skin | WorldTransform | Paint

  type Dirt = set<DirtFlag>

  /**
   * Component::hasDirt(value, flags): every flag of `flags` is present in `value`,
   * which is exactly when adding `flags` to `value` would change nothing.
   */
  predicate HasDirt(value: Dirt, flags: Dirt): (b: bool)
    ensures b <==> AddDirt(value, flags).0 == value
  {
    flags <= value
  }

  /**
   * Component::addDirt: the new mask and whether anything new was set
   * (the "changed" result that cuts dirt propagation short).
   */
  function AddDirt(dirt: Dirt, value: Dirt): (r: (Dirt, bool))
    ensures value <= r.0 && dirt <= r.0
    ensures forall f :: f in r.0 ==> f in dirt || f in value
    ensures r.1 <==> r.0 != dirt
  {
    (dirt + value, !(value <= dirt))
  }

  /** Adding the same flags a second time leaves the mask as it is and reports no change. */
  lemma AddDirtAgain(dirt: Dirt, value: Dirt)
    ensures AddDirt(AddDirt(dirt, value).0, value) == (AddDirt(dirt, value).0, false)
  {
  }

  /** Component::addDependent: register `c` once, keeping earlier dependents and their order. */
  function WithDependent<T(==)>(dependents: seq<T>, c: T): (r: seq<T>)
    ensures c in r
    ensures |dependents| <= |r| <= |dependents| + 1
    ensures r[..|dependents|] == dependents
    ensures forall x :: x in r ==> x in dependents || x == c
    ensures c in dependents ==> r == dependents
  {
    if c in dependents then dependents else dependents + [c]
  }
}
