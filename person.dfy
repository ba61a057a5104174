/** The `Person` fixture: an immutable record, a total lens per field, and a
    validating factory. */
module PersonFixture {
  import opened Prelude
  import opened Lenses
  import opened Validation

  /** Only `TryNew` builds a `Person` from raw inputs; the lenses build new
      ones from old ones. */
  datatype Person = Person(name: CsString, age: Int32)

  /** `Person.NameLens`: reads `Name`, rebuilds with a new `Name` and the old `Age`. */
  function NameLens(): (l: Lens<Person, CsString>)
    ensures Lawful(l)
    ensures forall p :: Get(l, p) == p.name
    ensures forall p, v :: Get(AgeLens(), Set(l, p, v)) == p.age
  {
    Lens((p: Person) => p.name, (v: CsString, p: Person) => Person(v, p.age))
  }

  /** `Person.AgeLens`: reads `Age`, rebuilds with the old `Name` and a new `Age`. */
  function AgeLens(): (l: Lens<Person, Int32>)
    ensures Lawful(l)
    ensures forall p :: Get(l, p) == p.age
    ensures forall p, v :: Set(l, p, v).name == p.name
  {
    Lens((p: Person) => p.age, (v: Int32, p: Person) => Person(p.name, v))
  }

  const MandatoryMessage := "Mandatory field"
  const PositiveMessage := "Field must be positive"

  /** `Person.Mandatory`: a name must be neither null nor empty. */
  function Mandatory(s: CsString): (r: Validated<CsString>)
    ensures r.Failure? <==> (s == Null || s == Text(""))
    ensures r.Failure? ==> r.errors == [MandatoryMessage]
    ensures r.Success? ==> r.value == s
  {
    Validator((x: CsString) => !IsNullOrEmpty(x), MandatoryMessage)(s)
  }

  /** `Person.Positive`: an age must be greater than zero. */
  function Positive(a: Int32): (r: Validated<Int32>)
    ensures r.Failure? <==> a <= 0
    ensures r.Failure? ==> r.errors == [PositiveMessage]
    ensures r.Success? ==> r.value == a
  {
    if a <= 0 then Failure([PositiveMessage]) else Success(a)
  }

  /** The private constructor, curried (`New.Curry()`). */
  function New(): (ctor: CsString -> Int32 -> Person)
    ensures forall name, age :: ctor(name)(age).name == name && ctor(name)(age).age == age
  {
    name => age => Person(name, age)
  }

  /** `Person.TryNew`: the curried constructor seeded as a success
      (`ReturnValidation`), then applied to the validated name and the
      validated age. It builds the person exactly when both inputs are
      valid, and otherwise reports the name's error before the age's. */
  function TryNew(name: CsString, age: Int32): (r: Validated<Person>)
    ensures r.Success? <==> !IsNullOrEmpty(name) && age > 0
    ensures r.Success? ==> r.value == Person(name, age)
    ensures ErrorsOf(r) ==
              (if IsNullOrEmpty(name) then [MandatoryMessage] else []) +
              (if age <= 0 then [PositiveMessage] else [])
  {
    Ap(Ap(Success(New()), Mandatory(name)), Positive(age))
  }

  /** Both inputs invalid: both messages, name first, none dropped. */
  lemma TryNewBothInvalid(name: CsString, age: Int32)
    requires IsNullOrEmpty(name) && age <= 0
    ensures TryNew(name, age) == Failure([MandatoryMessage, PositiveMessage])
  {
  }

  /** Only the name invalid: only the name's message. */
  lemma TryNewOnlyNameInvalid(name: CsString, age: Int32)
    requires IsNullOrEmpty(name) && age > 0
    ensures TryNew(name, age) == Failure([MandatoryMessage])
  {
  }

  /** Only the age invalid: only the age's message. */
  lemma TryNewOnlyAgeInvalid(name: CsString, age: Int32)
    requires !IsNullOrEmpty(name) && age <= 0
    ensures TryNew(name, age) == Failure([PositiveMessage])
  {
  }

  /** Each lens's setter touches its own field only. */
  lemma SettersKeepOtherField(p: Person, name: CsString, age: Int32)
    ensures Set(NameLens(), p, name) == Person(name, p.age)
    ensures Set(AgeLens(), p, age) == Person(p.name, age)
    ensures Get(AgeLens(), Set(NameLens(), p, name)) == Get(AgeLens(), p)
    ensures Get(NameLens(), Set(AgeLens(), p, age)) == Get(NameLens(), p)
  {
  }
}
