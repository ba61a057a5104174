/** The partial-lens fixture: a `Search` that may hold a `StateCity`, which
    may hold a city, and the composed lens from a search to its city. */
module PartialLensFixture {
  import opened Prelude
  import opened PartialLenses

  datatype StateCity = StateCity(state: CsString, city: Option<CsString>)

  /** `StateCity.CityP`: present when the city is; a set stores the new city
      and keeps the state. */
  function StateCityCityP(): (l: PartialLens<StateCity, CsString>)
    ensures Lawful(l)
    ensures forall x :: TryGet(l, x) == x.city
    ensures forall x: StateCity, v :: x.city.Some? ==> Set(l, x, v) == StateCity(x.state, Some(v))
  {
    Create((x: StateCity) => x.city, (x: StateCity, v: CsString) => StateCity(x.state, Some(v)))
  }

  /** `Search.ICityP` is a field that the C# constructor fills from the
      instance itself; here it is computed from the search on demand. */
  datatype Search = Search(name: Option<CsString>, stateCity: Option<StateCity>)

  /** `Search.StateCityP`: present when the state/city pair is; a set stores
      the new pair and keeps the name. */
  function SearchStateCityP(): (l: PartialLens<Search, StateCity>)
    ensures Lawful(l)
    ensures forall s :: TryGet(l, s) == s.stateCity
    ensures forall s: Search, v :: s.stateCity.Some? ==> Set(l, s, v) == Search(s.name, Some(v))
  {
    Create((x: Search) => x.stateCity, (x: Search, v: StateCity) => Search(x.name, Some(v)))
  }

  /** `Search.CityP = StateCityP.AndThen(StateCity.CityP)`. */
  function SearchCityP(): (l: PartialLens<Search, CsString>)
    ensures Lawful(l)
    ensures forall s :: TryGet(l, s) == CityOf(s)
    ensures forall s, v :: CityOf(s).None? ==> Set(l, s, v) == s
  {
    AndThenLawful(SearchStateCityP(), StateCityCityP());
    AndThen(SearchStateCityP(), StateCityCityP())
  }

  /** `search.ICityP`: the composed lens bound to the search. */
  function SearchICityP(s: Search): (i: InstancePartialLens<Search, CsString>)
    ensures i.instance == s
    ensures InstanceTryGet(i) == CityOf(s)
    ensures forall v :: InstanceSet(i, v) == Set(SearchCityP(), s, v)
  {
    InstancePartialLens(s, SearchCityP())
  }

  /** The city a search holds, read directly from the fields. */
  function CityOf(s: Search): Option<CsString> {
    match s.stateCity
    case None => None
    case Some(sc) => sc.city
  }

  /** The composed lens reads exactly the nested city, and a set through it
      changes the search only when both the pair and the city are present:
      then it stores the new city and keeps the name and the state. */
  lemma SearchCityPSet(s: Search, v: CsString)
    ensures TryGet(SearchCityP(), s) == CityOf(s)
    ensures CityOf(s).Some? ==>
              Set(SearchCityP(), s, v) ==
              Search(s.name, Some(StateCity(s.stateCity.value.state, Some(v))))
    ensures CityOf(s).None? ==> Set(SearchCityP(), s, v) == s
  {
  }

  /** With no state/city pair, a set through the composed lens leaves the
      pair absent. */
  lemma SearchCityPNoState(s: Search, v: CsString)
    requires s.stateCity.None?
    ensures TryGet(SearchCityP(), s).None?
    ensures Set(SearchCityP(), s, v).stateCity.None?
  {
  }

  /** With a pair but no city, the composed set drops the outer rebuild: the
      whole search is unchanged, the pair included. */
  lemma SearchCityPNoCity(s: Search, v: CsString)
    requires s.stateCity.Some? && s.stateCity.value.city.None?
    ensures Set(SearchCityP(), s, v) == s
  {
  }

  /** The bound lens does what the static one does on its instance, and
      leaves the instance as it was. */
  lemma SearchICityPDelegates(s: Search, v: CsString, f: CsString -> CsString)
    ensures SearchICityP(s).instance == s
    ensures InstanceTryGet(SearchICityP(s)) == CityOf(s)
    ensures InstanceSet(SearchICityP(s), v) == Set(SearchCityP(), s, v)
    ensures InstanceUpdate(SearchICityP(s), f) == Update(SearchCityP(), s, f)
  {
  }

  /** Test `SetNoState`: a search named "John" with no state/city pair, set
      to the city "Orlando" through its bound lens, still has no pair. */
  lemma SetNoState()
    ensures InstanceSet(SearchICityP(Search(Some(Text("John")), None)), Text("Orlando")).stateCity == None
  {
  }

  /** Setting through the composed lens does not fabricate a missing
      state/city pair, so read-after-set fails for it: the search of test
      `SetNoState` reads no city after a city is set. */
  lemma SearchCityPSetDoesNotCreate()
    ensures !(forall s: Search, v: CsString :: TryGet(SearchCityP(), Set(SearchCityP(), s, v)) == Some(v))
  {
    var noState := Search(Some(Text("John")), None);
    assert TryGet(SearchCityP(), Set(SearchCityP(), noState, Text("Orlando"))) == None;
  }

  /** The composed lens can be absent where its outer leg is present: a
      search holding a pair without a city. Setting there changes nothing,
      so the outer leg's rebuild is not used. */
  lemma SearchCityPAbsentWithOuterPresent()
    ensures exists s: Search :: TryGet(SearchStateCityP(), s).Some? && TryGet(SearchCityP(), s).None? &&
                                Set(SearchCityP(), s, Text("Orlando")) == s
  {
    var s := Search(None, Some(StateCity(Text("FL"), None)));
    assert TryGet(SearchStateCityP(), s).Some? && TryGet(SearchCityP(), s).None? &&
           Set(SearchCityP(), s, Text("Orlando")) == s;
  }
}
