/** The expectations of the total-lens tests on the person "john", aged 55. */
module LensFixture {
  import opened Prelude
  import opened Lenses
  import opened Validation
  import opened PersonFixture

  /** `Person.TryNew("john", 55).Value()`. */
  function John(): (p: Person)
    ensures p == Person(Text("john"), 55)
  {
    var v := TryNew(Text("john"), 55);
    v.value
  }

  /** "john" aged 55 passes both validators. */
  lemma JohnIsValid()
    ensures TryNew(Text("john"), 55) == Success(John())
  {
  }

  /** The transformation the update tests apply: `x => x + " doe"`. */
  function AppendDoe(x: CsString): (r: CsString)
    ensures x.Text? ==> r == Text(x.chars + " doe")
    ensures x.Null? ==> r == Text(" doe")
  {
    Concat(x, Text(" doe"))
  }

  /** Test `Get`. */
  lemma GetJohn()
    ensures Get(NameLens(), John()) == Text("john")
    ensures Get(AgeLens(), John()) == 55
  {
  }

  /** Test `Set`: renaming gives "hector" and keeps the age. */
  lemma SetHector()
    ensures Set(NameLens(), John(), Text("hector")).name == Text("hector")
    ensures Set(NameLens(), John(), Text("hector")).age == 55
  {
  }

  /** Test `Update`: appending " doe" gives "john doe". */
  lemma UpdateJohnDoe()
    ensures Update(NameLens(), John(), AppendDoe).name == Text("john doe")
    ensures Update(NameLens(), John(), AppendDoe) == Set(NameLens(), John(), AppendDoe(Get(NameLens(), John())))
  {
  }

  /** Test `InstanceGet`, with the age lens read against the age (55). */
  lemma InstanceGetJohn()
    ensures InstanceGet(InstanceLens(John(), AgeLens())) == 55
    ensures InstanceGet(InstanceLens(John(), NameLens())) == Text("john")
  {
  }

  /** Tests `InstanceSet` and `InstanceUpdate`: the bound lens gives what the
      static lens gives. */
  lemma InstanceSetAndUpdateJohn()
    ensures InstanceSet(InstanceLens(John(), NameLens()), Text("hector")) == Set(NameLens(), John(), Text("hector"))
    ensures InstanceSet(InstanceLens(John(), NameLens()), Text("hector")).name == Text("hector")
    ensures InstanceUpdate(InstanceLens(John(), NameLens()), AppendDoe) == Update(NameLens(), John(), AppendDoe)
    ensures InstanceUpdate(InstanceLens(John(), NameLens()), AppendDoe).name == Text("john doe")
  {
  }
}
