/** Partial lenses: accessors for a field that may be absent. */
module PartialLenses {
  import opened Prelude

  /** A partial lens is one probe: on a whole `s` it yields nothing when the
      field is absent, or the function that rebuilds `s` around a new field
      value together with the current field value. Because the rebuild comes
      from the same probe as the value, a set can only take effect where a
      get would have succeeded. */
  datatype PartialLens<!S, !A> = PartialLens(probe: S -> Option<(A -> S, A)>)

  /** `lens.TryGet(s)`: the current field value, if present. */
  function TryGet<S(!new), A(!new)>(l: PartialLens<S, A>, s: S): (r: Option<A>)
    ensures r.Some? <==> l.probe(s).Some?
    ensures r.Some? ==> r.value == l.probe(s).value.1
  {
    match l.probe(s)
    case None => None
    case Some((_, a)) => Some(a)
  }

  /** `lens.Set(s, v)`: rebuild around `v` when present; otherwise `s` itself. */
  function Set<S(!new), A(!new)>(l: PartialLens<S, A>, s: S, v: A): (r: S)
    ensures TryGet(l, s).None? ==> r == s
    ensures TryGet(l, s).Some? ==> r == l.probe(s).value.0(v)
  {
    match l.probe(s)
    case None => s
    case Some((rebuild, _)) => rebuild(v)
  }

  /** `lens.Update(s, f)`: `f` is applied once, and only when the field is present. */
  function Update<S(!new), A(!new)>(l: PartialLens<S, A>, s: S, f: A -> A): (r: S)
    ensures TryGet(l, s).None? ==> r == s
    ensures TryGet(l, s).Some? ==> r == Set(l, s, f(TryGet(l, s).value))
  {
    match l.probe(s)
    case None => s
    case Some((rebuild, a)) => rebuild(f(a))
  }

  /** A partial lens from an option getter and a setter taking the whole
      value first (`PartialLensEx.Create`); present exactly where the getter
      returns a value. */
  function Create<S(!new), A(!new)>(getter: S -> Option<A>, setter: (S, A) -> S): (r: PartialLens<S, A>)
    ensures forall s :: TryGet(r, s) == getter(s)
    ensures forall s, v :: Set(r, s, v) == if getter(s).Some? then setter(s, v) else s
  {
    PartialLens(s =>
      match getter(s)
      case None => None
      case Some(a) => Some(((v: A) => setter(s, v), a)))
  }

  /** The field `inner` selects inside the field `outer` selects: absent as
      soon as either leg is absent. When the inner leg is absent the outer
      rebuild is dropped, so a set then changes nothing at all. */
  function AndThen<S(!new), A(!new), B(!new)>(outer: PartialLens<S, A>, inner: PartialLens<A, B>): (r: PartialLens<S, B>)
    ensures forall s :: TryGet(r, s) ==
              (match TryGet(outer, s)
               case None => None
               case Some(a) => TryGet(inner, a))
    ensures forall s, v :: Set(r, s, v) ==
              (if TryGet(outer, s).Some? && TryGet(inner, TryGet(outer, s).value).Some?
               then Set(outer, s, Set(inner, TryGet(outer, s).value, v))
               else s)
  {
    PartialLens(s =>
      match outer.probe(s)
      case None => None
      case Some((rebuildOuter, a)) =>
        match inner.probe(a)
        case None => None
        case Some((rebuildInner, b)) => Some(((v: B) => rebuildOuter(rebuildInner(v)), b)))
  }

  /** Where present, setting the current value changes nothing. */
  ghost predicate GetSet<S(!new), A(!new)>(l: PartialLens<S, A>) {
    forall s :: TryGet(l, s).Some? ==> Set(l, s, TryGet(l, s).value) == s
  }

  /** Where present, what was set is read back, and the field stays present. */
  ghost predicate SetGet<S(!new), A(!new)>(l: PartialLens<S, A>) {
    forall s, v :: TryGet(l, s).Some? ==> TryGet(l, Set(l, s, v)) == Some(v)
  }

  /** Where present, the later of two sets wins. */
  ghost predicate SetSet<S(!new), A(!new)>(l: PartialLens<S, A>) {
    forall s, v1, v2 :: TryGet(l, s).Some? ==> Set(l, Set(l, s, v1), v2) == Set(l, s, v2)
  }

  ghost predicate Lawful<S(!new), A(!new)>(l: PartialLens<S, A>) {
    GetSet(l) && SetGet(l) && SetSet(l)
  }

  /** Absence is sticky: set and update on an absent field are no-ops, and
      the field stays absent. */
  lemma AbsentIsNoOp<S(!new), A(!new)>(l: PartialLens<S, A>, s: S, v: A, f: A -> A)
    requires TryGet(l, s).None?
    ensures Set(l, s, v) == s && Update(l, s, f) == s
    ensures TryGet(l, Set(l, s, v)).None?
  {
  }

  /** Updating a present field with the identity changes nothing. */
  lemma UpdateIdentity<S(!new), A(!new)>(l: PartialLens<S, A>, s: S)
    requires GetSet(l)
    ensures Update(l, s, x => x) == s
  {
  }

  /** Composing two lawful partial lenses gives a lawful partial lens. */
  lemma AndThenLawful<S(!new), A(!new), B(!new)>(outer: PartialLens<S, A>, inner: PartialLens<A, B>)
    requires Lawful(outer) && Lawful(inner)
    ensures Lawful(AndThen(outer, inner))
  {
    var r := AndThen(outer, inner);
    forall s | TryGet(r, s).Some?
      ensures Set(r, s, TryGet(r, s).value) == s
    {
      var a := TryGet(outer, s).value;
      assert Set(inner, a, TryGet(inner, a).value) == a;
    }
    forall s, v | TryGet(r, s).Some?
      ensures TryGet(r, Set(r, s, v)) == Some(v)
    {
      var a := TryGet(outer, s).value;
      var a' := Set(inner, a, v);
      assert TryGet(outer, Set(outer, s, a')) == Some(a');
      assert TryGet(inner, a') == Some(v);
    }
    forall s, v1, v2 | TryGet(r, s).Some?
      ensures Set(r, Set(r, s, v1), v2) == Set(r, s, v2)
    {
      var a := TryGet(outer, s).value;
      var a1 := Set(inner, a, v1);
      var s1 := Set(outer, s, a1);
      assert TryGet(outer, s1) == Some(a1);
      assert TryGet(inner, a1) == Some(v1);
      assert Set(inner, a1, v2) == Set(inner, a, v2);
      assert Set(outer, s1, Set(inner, a, v2)) == Set(outer, s, Set(inner, a, v2));
    }
  }

  /** Updating through a composition is updating the outer field with an
      update of the inner field, provided the outer leg obeys get-set: when
      the inner field is absent both sides leave the whole unchanged. */
  lemma AndThenUpdate<S(!new), A(!new), B(!new)>(outer: PartialLens<S, A>, inner: PartialLens<A, B>, s: S, f: B -> B)
    requires GetSet(outer)
    ensures Update(AndThen(outer, inner), s, f) == Update(outer, s, (a: A) => Update(inner, a, f))
  {
  }

  /** A partial lens bound to one instance (`InstancePartialLens`). The
      instance is a value and is never changed; set and update return a new
      whole. */
  datatype InstancePartialLens<!S, !A> = InstancePartialLens(instance: S, lens: PartialLens<S, A>)

  function InstanceTryGet<S(!new), A(!new)>(i: InstancePartialLens<S, A>): (r: Option<A>)
    ensures r == TryGet(i.lens, i.instance)
  {
    match i.lens.probe(i.instance)
    case None => None
    case Some((_, a)) => Some(a)
  }

  function InstanceSet<S(!new), A(!new)>(i: InstancePartialLens<S, A>, v: A): (r: S)
    ensures r == Set(i.lens, i.instance, v)
    ensures TryGet(i.lens, i.instance).None? ==> r == i.instance
  {
    match i.lens.probe(i.instance)
    case None => i.instance
    case Some((rebuild, _)) => rebuild(v)
  }

  function InstanceUpdate<S(!new), A(!new)>(i: InstancePartialLens<S, A>, f: A -> A): (r: S)
    ensures r == Update(i.lens, i.instance, f)
    ensures TryGet(i.lens, i.instance).None? ==> r == i.instance
  {
    match i.lens.probe(i.instance)
    case None => i.instance
    case Some((rebuild, a)) => rebuild(f(a))
  }
}
