/** Total lenses: a getter and a setter over an immutable value, and a lens
    bound to one instance. */
module Lenses {

  /** A lens as `Lens.Create(getter, setter)` receives it: the setter takes the
      new field value first and the whole value second, and returns a new whole. */
  datatype Lens<!S, !A> = Lens(getter: S -> A, setter: (A, S) -> S)

  /** `lens.Get(s)`. */
  function Get<S(!new), A(!new)>(l: Lens<S, A>, s: S): (r: A)
    ensures GetSet(l) ==> l.setter(r, s) == s
  {
    l.getter(s)
  }

  /** `lens.Set(s, v)`: a new whole whose field is `v`. */
  function Set<S(!new), A(!new)>(l: Lens<S, A>, s: S, v: A): (r: S)
    ensures SetGet(l) ==> Get(l, r) == v
  {
    l.setter(v, s)
  }

  /** `lens.Update(s, f)`: the field is read once, transformed once and set. */
  function Update<S(!new), A(!new)>(l: Lens<S, A>, s: S, f: A -> A): (r: S)
    ensures r == Set(l, s, f(Get(l, s)))
    ensures SetGet(l) ==> Get(l, r) == f(Get(l, s))
  {
    l.setter(f(l.getter(s)), s)
  }

  /** Setting the value already there changes nothing. */
  ghost predicate GetSet<S(!new), A(!new)>(l: Lens<S, A>) {
    forall s :: l.setter(l.getter(s), s) == s
  }

  /** What was set is what is read back. */
  ghost predicate SetGet<S(!new), A(!new)>(l: Lens<S, A>) {
    forall s, v :: l.getter(l.setter(v, s)) == v
  }

  /** The later of two sets wins; the earlier leaves no trace. */
  ghost predicate SetSet<S(!new), A(!new)>(l: Lens<S, A>) {
    forall s, v1, v2 :: l.setter(v2, l.setter(v1, s)) == l.setter(v2, s)
  }

  ghost predicate Lawful<S(!new), A(!new)>(l: Lens<S, A>) {
    GetSet(l) && SetGet(l) && SetSet(l)
  }

  /** Setting the same value twice is setting it once. */
  lemma SetTwice<S(!new), A(!new)>(l: Lens<S, A>, s: S, v: A)
    requires SetSet(l)
    ensures Set(l, Set(l, s, v), v) == Set(l, s, v)
  {
  }

  /** Updating with the identity changes nothing. */
  lemma UpdateIdentity<S(!new), A(!new)>(l: Lens<S, A>, s: S)
    requires GetSet(l)
    ensures Update(l, s, x => x) == s
  {
  }

  /** A lens bound to one instance (`InstanceLens`): get, set and update
      without passing the instance again. The instance itself is a value and
      is never changed; set and update return a new whole. */
  datatype InstanceLens<!S, !A> = InstanceLens(instance: S, lens: Lens<S, A>)

  function InstanceGet<S(!new), A(!new)>(i: InstanceLens<S, A>): (r: A)
    ensures r == Get(i.lens, i.instance)
  {
    i.lens.getter(i.instance)
  }

  function InstanceSet<S(!new), A(!new)>(i: InstanceLens<S, A>, v: A): (r: S)
    ensures r == Set(i.lens, i.instance, v)
    ensures SetGet(i.lens) ==> Get(i.lens, r) == v
  {
    i.lens.setter(v, i.instance)
  }

  function InstanceUpdate<S(!new), A(!new)>(i: InstanceLens<S, A>, f: A -> A): (r: S)
    ensures r == Update(i.lens, i.instance, f)
    ensures SetGet(i.lens) ==> Get(i.lens, r) == f(Get(i.lens, i.instance))
  {
    i.lens.setter(f(i.lens.getter(i.instance)), i.instance)
  }
}
