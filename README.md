# Optics and validation fixtures of FSharpx, in Dafny

This project models the C# fixtures that exercise FSharpx's optics and
validation layer:

- a `Person` record with a total lens per field (`NameLens`, `AgeLens`) and a
  validating factory `TryNew`, which applies two validators (`Mandatory`,
  `Positive`) through the accumulating validation applicative;
- a `Search` that may hold a `StateCity`, which may hold a city, with partial
  lenses `StateCity.CityP` and `Search.StateCityP`, their composition
  `Search.CityP` (`AndThen`), and that composition bound to a search
  (`ICityP`);
- the expectations the lens tests place on the person "john", aged 55.

The library combinators the fixtures call (`Lens.Create`,
`PartialLensEx.Create`, `AndThen`, `InstancePartialLens.Create`,
`ReturnValidation`, `ApValidation`, `FSharpChoice.Validator`) are modelled
only by the behaviour the fixtures rely on. Their F# source is not part of
this model, and the model does not claim to match its code line by line.

Files, one module each:

- `prelude.dfy` (`Prelude`): `Option` for `FSharpOption` (null is `None`),
  `CsString` for a nullable C# string, `Int32` for C#'s `int`,
  `IsNullOrEmpty`, and string `+`.
- `lenses.dfy` (`Lenses`): a total lens as a getter and a setter; get, set and
  update; the GetSet, SetGet and SetSet laws; instance-bound lenses.
- `partial_lenses.dfy` (`PartialLenses`): a partial lens as one probe
  `S -> Option<(A -> S, A)>`; try-get, set, update, `Create`, `AndThen`; the
  partial-lens laws; instance-bound partial lenses.
- `validation.dfy` (`Validation`): `Validated<T>` with a non-empty error list,
  the validator builder, and `Ap`.
- `person.dfy` (`PersonFixture`): `tests/FSharpx.CSharpTests/Person.cs`.
- `partial_lens_tests.dfy` (`PartialLensFixture`):
  `tests/FSharpx.CSharpTests/PartialLensTests.cs`.
- `lens_tests.dfy` (`LensFixture`): `tests/FSharpx.CSharpTests/LensTests.cs`.

Each test's assertions become a lemma, and every law is proved for all inputs.
The lens operations take the whole first, `Set(whole, value)`, as the tests
call them. The `setter` field of a total
lens keeps `Lens.Create`'s value-first order (`(v, x) => ...`).

## Model

| member | source | states |
|---|---|---|
| Lenses.Get | tests/FSharpx.CSharpTests/LensTests.cs:14-15 | for a lens obeying GetSet, setting the value read gives the same whole back |
| Lenses.Set | tests/FSharpx.CSharpTests/LensTests.cs:20-21 | for a lens obeying SetGet, the value set is the value read back from the new whole |
| Lenses.Update | tests/FSharpx.CSharpTests/LensTests.cs:26-27 | update is set of `f` applied to the current field; for a SetGet lens the new field is `f` of the old |
| Lenses.SetTwice | tests/FSharpx.CSharpTests/Person.cs:15-19 | under SetSet, setting the same value twice equals setting it once |
| Lenses.UpdateIdentity | tests/FSharpx.CSharpTests/LensTests.cs:26 | under GetSet, updating with the identity returns the same whole |
| Lenses.InstanceGet | tests/FSharpx.CSharpTests/LensTests.cs:32 | a bound lens reads what the static lens reads on the bound instance |
| Lenses.InstanceSet | tests/FSharpx.CSharpTests/LensTests.cs:37 | a bound set is the static set on the bound instance; under SetGet it reads back the value |
| Lenses.InstanceUpdate | tests/FSharpx.CSharpTests/LensTests.cs:43 | a bound update is the static update on the bound instance; under SetGet the new field is `f` of the old |
| PartialLenses.TryGet | tests/FSharpx.CSharpTests/PartialLensTests.cs:13-14 | present exactly when the probe is, with the probe's current value |
| PartialLenses.Set | tests/FSharpx.CSharpTests/PartialLensTests.cs:43-44 | on an absent field the whole is returned unchanged; on a present one the probe's rebuild is applied to the new value |
| PartialLenses.Update | tests/FSharpx.CSharpTests/PartialLensTests.cs:29 | absent: unchanged whole; present: the set of `f` applied to the current value (the fixtures never call a partial-lens update) |
| PartialLenses.Create | tests/FSharpx.CSharpTests/PartialLensTests.cs:13-14 | try-get equals the option getter; set applies the setter exactly where the getter is present, and is the identity elsewhere |
| PartialLenses.AndThen | tests/FSharpx.CSharpTests/PartialLensTests.cs:29 | the composition is absent as soon as either leg is; a set changes the whole only when both legs are present, and then sets the outer field to the inner-updated value |
| PartialLenses.AbsentIsNoOp | tests/FSharpx.CSharpTests/PartialLensTests.cs:41-44 | on an absent field set and update return the whole unchanged, and the field stays absent |
| PartialLenses.UpdateIdentity | tests/FSharpx.CSharpTests/PartialLensTests.cs:13-14 | under GetSet, updating with the identity returns the same whole |
| PartialLenses.AndThenLawful | tests/FSharpx.CSharpTests/PartialLensTests.cs:29 | composing two partial lenses that obey GetSet, SetGet and SetSet gives one that obeys all three |
| PartialLenses.AndThenUpdate | tests/FSharpx.CSharpTests/PartialLensTests.cs:29 | if the outer leg obeys GetSet, updating through the composition equals updating the outer field with an inner update |
| PartialLenses.InstanceTryGet | tests/FSharpx.CSharpTests/PartialLensTests.cs:36 | a bound partial lens reads what the static one reads on the bound instance |
| PartialLenses.InstanceSet | tests/FSharpx.CSharpTests/PartialLensTests.cs:43 | a bound set is the static set on the bound instance, and returns that instance itself when the field is absent |
| PartialLenses.InstanceUpdate | tests/FSharpx.CSharpTests/PartialLensTests.cs:36 | a bound update is the static update on the bound instance, and returns that instance itself when the field is absent (the fixtures never call it) |
| Validation.Validator | tests/FSharpx.CSharpTests/Person.cs:30 | the built validator succeeds exactly where the predicate holds, with the input itself, and otherwise fails with exactly the one message |
| Validation.Ap | tests/FSharpx.CSharpTests/Person.cs:24-26 | succeeds exactly when both sides succeed, with the function applied to the argument; the errors are the function side's followed by the argument side's |
| PersonFixture.NameLens | tests/FSharpx.CSharpTests/Person.cs:15-16 | the name lens obeys the three lens laws, reads `Name`, and a set through it keeps `Age` |
| PersonFixture.AgeLens | tests/FSharpx.CSharpTests/Person.cs:18-19 | the age lens obeys the three lens laws, reads `Age`, and a set through it keeps `Name` |
| PersonFixture.New | tests/FSharpx.CSharpTests/Person.cs:21 | the curried constructor builds the person with exactly the given name and age |
| PersonFixture.Mandatory | tests/FSharpx.CSharpTests/Person.cs:29-30 | fails, with exactly `["Mandatory field"]`, exactly when the name is null or empty; otherwise succeeds with the name |
| PersonFixture.Positive | tests/FSharpx.CSharpTests/Person.cs:36-39 | fails, with exactly `["Field must be positive"]`, exactly when the age is at most 0; otherwise succeeds with the age |
| PersonFixture.TryNew | tests/FSharpx.CSharpTests/Person.cs:23-27 | succeeds exactly when both inputs are valid, with `Person(name, age)`; the errors are the name's message (if any) followed by the age's message (if any) |
| PersonFixture.TryNewBothInvalid | tests/FSharpx.CSharpTests/Person.cs:24-26 | both inputs invalid: failure with `["Mandatory field", "Field must be positive"]` in that order |
| PersonFixture.TryNewOnlyNameInvalid | tests/FSharpx.CSharpTests/Person.cs:24-26 | only the name invalid: failure with `["Mandatory field"]` alone |
| PersonFixture.TryNewOnlyAgeInvalid | tests/FSharpx.CSharpTests/Person.cs:24-26 | only the age invalid: failure with `["Field must be positive"]` alone |
| PersonFixture.SettersKeepOtherField | tests/FSharpx.CSharpTests/Person.cs:15-19 | setting the name keeps the age, and setting the age keeps the name |
| PartialLensFixture.StateCityCityP | tests/FSharpx.CSharpTests/PartialLensTests.cs:13-14 | `StateCity.CityP` obeys the three partial-lens laws, reads `City`, and where a city is present a set stores `Some(v)` and keeps `State` |
| PartialLensFixture.SearchStateCityP | tests/FSharpx.CSharpTests/PartialLensTests.cs:26-27 | `Search.StateCityP` obeys the three partial-lens laws, reads `StateCity`, and where a pair is present a set stores `Some(v)` and keeps `Name` |
| PartialLensFixture.SearchCityP | tests/FSharpx.CSharpTests/PartialLensTests.cs:29 | the composed `Search.CityP` obeys the three partial-lens laws, reads the nested city, and a set where that city is absent changes nothing |
| PartialLensFixture.SearchICityP | tests/FSharpx.CSharpTests/PartialLensTests.cs:36 | `ICityP` is bound to its own search, reads that search's nested city, and sets as the static `CityP` does on it |
| PartialLensFixture.SearchCityPSet | tests/FSharpx.CSharpTests/PartialLensTests.cs:29 | the composed lens reads the nested city; with both legs present a set stores the city and keeps the name and the state; otherwise it changes nothing |
| PartialLensFixture.SearchCityPNoState | tests/FSharpx.CSharpTests/PartialLensTests.cs:41-44 | with no state/city pair the composed lens is absent, and the pair stays absent after a set |
| PartialLensFixture.SearchCityPNoCity | tests/FSharpx.CSharpTests/PartialLensTests.cs:29 | with a pair but no city, a composed set leaves the whole search unchanged |
| PartialLensFixture.SearchICityPDelegates | tests/FSharpx.CSharpTests/PartialLensTests.cs:36 | `ICityP` is bound to its own search, and its get, set and update equal those of the static `CityP` on that search |
| PartialLensFixture.SetNoState | tests/FSharpx.CSharpTests/PartialLensTests.cs:41-45 | setting "Orlando" through `ICityP` of a search named "John" with no pair yields a search with no pair |
| PartialLensFixture.SearchCityPSetDoesNotCreate | tests/FSharpx.CSharpTests/PartialLensTests.cs:41-44 | read-after-set does not hold for all searches: a set cannot create a missing pair |
| PartialLensFixture.SearchCityPAbsentWithOuterPresent | tests/FSharpx.CSharpTests/PartialLensTests.cs:29 | some search has the outer leg present and the composition absent, and a set leaves it unchanged |
| Prelude.IsNullOrEmpty | tests/FSharpx.CSharpTests/Person.cs:30 | true exactly for a null string or one of length 0 |
| Prelude.Concat | tests/FSharpx.CSharpTests/LensTests.cs:26 | string `+` never yields null, joins two non-null strings' characters in order, and reads a null operand as empty |
| LensFixture.John | tests/FSharpx.CSharpTests/LensTests.cs:10 | the value of `TryNew("john", 55)` is the person named "john" aged 55 |
| LensFixture.JohnIsValid | tests/FSharpx.CSharpTests/LensTests.cs:10 | `TryNew("john", 55)` is a success |
| LensFixture.AppendDoe | tests/FSharpx.CSharpTests/LensTests.cs:26 | the lambda `x => x + " doe"` (also at line 43) appends " doe" to a non-null name and gives " doe" for a null one |
| LensFixture.GetJohn | tests/FSharpx.CSharpTests/LensTests.cs:13-15 | the name lens reads "john" and the age lens reads 55 |
| LensFixture.SetHector | tests/FSharpx.CSharpTests/LensTests.cs:19-21 | renaming to "hector" gives the name "hector" and keeps the age 55 |
| LensFixture.UpdateJohnDoe | tests/FSharpx.CSharpTests/LensTests.cs:25-27 | appending " doe" through the name lens gives "john doe", which is the set of the transformed current name |
| LensFixture.InstanceGetJohn | tests/FSharpx.CSharpTests/LensTests.cs:31-33 | the age lens bound to john reads 55; the name lens bound to john reads "john" |
| LensFixture.InstanceSetAndUpdateJohn | tests/FSharpx.CSharpTests/LensTests.cs:36-44 | set and update through the name lens bound to john equal the static calls, giving "hector" and "john doe" |

## Left out

- The F# library code behind `Lens.Create`, `PartialLensEx.Create`, `AndThen`, `InstancePartialLens.Create`, `ReturnValidation`, `ApValidation`, `FSharpChoice.Validator`, `FSharpChoice` and `NonEmptyList` is not part of this model. Only the behaviour the fixtures rely on is modelled.
- `New.Curry()` turns the constructor into a curried function by reflection. The model writes out the curried constructor (`PersonFixture.New`) and the fixed two-step `Ap` chain.
- C# `null` is modelled as data: a null `string` is `CsString.Null`, and a null `FSharpOption` (as in `new Search(..., null)`) is `None`. `Assert.IsNull` becomes a check for `None`.
- Null object references are not modelled: there is no null `Person`, `StateCity` or `Search`. In C#, `NameLens.Get(null)` and `Set(null, v)` (Person.cs:16, 19) throw `NullReferenceException`. So does `Search.StateCityP.Set(s, null)` followed by a read through `CityP`: it stores `Some(null)` (PartialLensTests.cs:27), and the inner getter then reads `City` of null (line 14). `PartialLensFixture.SearchCityP`, `PartialLensFixture.SearchCityPSet` and the other lens laws are proved over non-null objects only.
- `Person`, `StateCity` and `Search` are C# classes without an `Equals` override, so C# compares them by reference. The model's records compare field by field. Every set builds a new object in C# (`new Person(v, x.Age)`, Person.cs:16), so GetSet, SetSet and the results that say the "whole is unchanged" or that the "instance itself" is returned (`PartialLenses.InstanceSet`, `PartialLenses.AbsentIsNoOp`) hold up to field-wise equality, not reference identity. On an absent field the C# partial set may well return the same reference, but the model does not tell the two apart.
- Strings are sequences of Dafny characters (Unicode scalar values), not UTF-16 code units. Lone surrogates, and how C#'s `+` joins surrogate halves, are not modelled.
- `Search.ICityP` is a field the C# constructor initialises from `this`. A Dafny datatype cannot hold itself, so `SearchICityP(s)` builds the bound lens from the search on demand. Because the search is immutable, this behaves the same.
- `NameL` and `AgeL` are called by the tests but not defined in `Person.cs`. They are modelled as `InstanceLens(john, NameLens())` and `InstanceLens(john, AgeLens())`.
- LensTests.cs:32 is a defect in the test. It asserts through NUnit's `Assert.AreEqual(object, object)` that `john.AgeL.Get()`, the `int` 55, equals the string "john", so as written it would fail. `LensFixture.InstanceGetJohn` proves the age lens reads 55 and the name lens reads "john" instead.
- `Value()` on a validation result is only used on a success here (LensTests.cs:10), so what it does on a failure is not modelled.
- The NUnit fixture, the `[Test]` attributes and the `Assert` calls are not modelled. Each test's expectations are a lemma.
- Total-lens composition (`Lens.AndThen`), compositions that mix total and partial lenses, and associativity of composition are not used by these files and are not modelled.
- The model cannot state that `Update` evaluates its function at most once. The modelled `Update` applies the function exactly once, and only when the field is present.
- No arithmetic is done on `Int32` ages, so wrap-around does not arise.
- Thread-safety is not modelled: every value here is immutable.
