/**
 * The country and state selector: the states offered are those of the
 * selected country, the `valueCountry`/`valueState` props select the first
 * entry of that name, choosing a country resets the state, and the state
 * selector is rendered only when the country has states.
 *
 * The bundled country and state lists are parameters; only the fields the
 * selector reads are kept. Each call of the optional change callbacks is
 * recorded in order.
 */
module LocationInput {
  import opened Common

  datatype Country = Country(id: int, name: string)

  datatype State = State(id: int, name: string, countryId: int)

  /** `statesData.filter(state => state.country_id === selectedCountry?.id)`. */
  function AvailableStates(states: seq<State>, selected: Option<Country>): (r: seq<State>)
    ensures |r| <= |states|
  {
    if states == [] then []
    else
      var rest := AvailableStates(states[1..], selected);
      if selected.Some? && states[0].countryId == selected.value.id then [states[0]] + rest else rest
  }

  /** `list.find(x => x.name === name) || null`, with `nameOf` reading the entry's name. */
  function FindByName<T>(xs: seq<T>, nameOf: T -> string, name: string): Option<T>
  {
    if xs == [] then None
    else if nameOf(xs[0]) == name then Some(xs[0])
    else FindByName(xs[1..], nameOf, name)
  }

  function CountryName(c: Country): string { c.name }

  function StateName(x: State): string { x.name }

  /** The `valueCountry` effect: "" (or a missing prop) clears the selection. */
  function CountryFromProp(countries: seq<Country>, valueCountry: string): Option<Country>
  {
    if valueCountry == "" then None else FindByName(countries, CountryName, valueCountry)
  }

  /** The `valueState` effect, which searches every state and not only the selected country's. */
  function StateFromProp(states: seq<State>, valueState: string): Option<State>
  {
    if valueState == "" then None else FindByName(states, StateName, valueState)
  }

  /** The state selector is rendered when its list is not empty. */
  predicate StateSelectorShown(states: seq<State>, selected: Option<Country>)
  {
    |AvailableStates(states, selected)| > 0
  }

  datatype Notice = CountryChanged(country: Option<Country>) | StateChanged(state: Option<State>)

  /** An optional callback's call `cb?.(…)`: recorded when the prop was given, nothing otherwise. */
  function Reported(given: bool, n: Notice): (r: seq<Notice>)
    ensures given <==> r == [n]
    ensures !given <==> r == []
  {
    if given then [n] else []
  }

  class LocationSelector {
    var selectedCountry: Option<Country>
    var selectedState: Option<State>
    var openCountryDropdown: bool
    var openStateDropdown: bool
    /** The calls of `onCountryChange` and `onStateChange`, in order. */
    var notices: seq<Notice>
    /** Whether the optional `onCountryChange` and `onStateChange` props were given. */
    const hasCountryCallback: bool
    const hasStateCallback: bool

    constructor (hasCountryCallback: bool, hasStateCallback: bool)
      ensures selectedCountry == None && selectedState == None && !openCountryDropdown && !openStateDropdown
      ensures notices == []
      ensures this.hasCountryCallback == hasCountryCallback && this.hasStateCallback == hasStateCallback
    {
      this.hasCountryCallback := hasCountryCallback;
      this.hasStateCallback := hasStateCallback;
      selectedCountry := None;
      selectedState := None;
      openCountryDropdown := false;
      openStateDropdown := false;
      notices := [];
    }

    method SyncCountry(countries: seq<Country>, valueCountry: string)
      modifies this`selectedCountry
      ensures selectedCountry == CountryFromProp(countries, valueCountry)
    {
      if valueCountry != "" {
        selectedCountry := FindByName(countries, CountryName, valueCountry);
      } else {
        selectedCountry := None;
      }
    }

    method SyncState(states: seq<State>, valueState: string)
      modifies this`selectedState
      ensures selectedState == StateFromProp(states, valueState)
    {
      if valueState != "" {
        selectedState := FindByName(states, StateName, valueState);
      } else {
        selectedState := None;
      }
    }

    method HandleCountrySelect(country: Option<Country>)
      modifies this`selectedCountry, this`selectedState, this`notices
      ensures selectedCountry == country && selectedState == None
      ensures notices == old(notices) + Reported(hasCountryCallback, CountryChanged(country))
                                      + Reported(hasStateCallback, StateChanged(None))
    {
      selectedCountry := country;
      selectedState := None;
      if hasCountryCallback {
        notices := notices + [CountryChanged(country)];
      }
      if hasStateCallback {
        notices := notices + [StateChanged(None)];
      }
    }

    method HandleStateSelect(state: Option<State>)
      modifies this`selectedState, this`notices
      ensures selectedState == state && notices == old(notices) + Reported(hasStateCallback, StateChanged(state))
      ensures selectedCountry == old(selectedCountry)
    {
      selectedState := state;
      if hasStateCallback {
        notices := notices + [StateChanged(state)];
      }
    }

    /** A country item's `onSelect`: select it and close the dropdown. */
    method SelectCountryItem(country: Country)
      modifies this`selectedCountry, this`selectedState, this`notices, this`openCountryDropdown
      ensures selectedCountry == Some(country) && selectedState == None && !openCountryDropdown
      ensures notices == old(notices) + Reported(hasCountryCallback, CountryChanged(Some(country)))
                                      + Reported(hasStateCallback, StateChanged(None))
    {
      HandleCountrySelect(Some(country));
      openCountryDropdown := false;
    }

    /** A state item's `onSelect`: select it and close the dropdown; the country stays. */
    method SelectStateItem(state: State)
      modifies this`selectedState, this`notices, this`openStateDropdown
      ensures selectedState == Some(state) && !openStateDropdown
      ensures notices == old(notices) + Reported(hasStateCallback, StateChanged(Some(state)))
    {
      HandleStateSelect(Some(state));
      openStateDropdown := false;
    }
  }

  // ---- Properties ----

  /** The available states are exactly the selected country's, in list order, and none without a country. */
  lemma {:induction false} AvailableStatesExact(states: seq<State>, selected: Option<Country>)
    ensures var r := AvailableStates(states, selected);
      && (forall x :: x in r <==> x in states && selected.Some? && x.countryId == selected.value.id)
      && (selected.None? ==> r == [])
  {
    if states != [] {
      AvailableStatesExact(states[1..], selected);
      assert states == [states[0]] + states[1..];
    }
  }

  /** `find` returns the first entry of the name, and nothing when no entry has it. */
  lemma {:induction false} FindFirst<T>(xs: seq<T>, nameOf: T -> string, name: string)
    ensures var r := FindByName(xs, nameOf, name);
      && (r.None? <==> forall i :: 0 <= i < |xs| ==> nameOf(xs[i]) != name)
      && (r.Some? ==> exists i :: 0 <= i < |xs| && xs[i] == r.value && nameOf(r.value) == name
                                  && forall j :: 0 <= j < i ==> nameOf(xs[j]) != name)
  {
    if xs != [] && nameOf(xs[0]) != name {
      FindFirst(xs[1..], nameOf, name);
      var r := FindByName(xs, nameOf, name);
      if r.Some? {
        var i :| 0 <= i < |xs[1..]| && xs[1..][i] == r.value && nameOf(r.value) == name
                 && forall j :: 0 <= j < i ==> nameOf(xs[1..][j]) != name;
        assert xs[i + 1] == r.value;
        assert forall j :: 0 <= j < i + 1 ==> nameOf(xs[j]) != name by {
          forall j | 0 <= j < i + 1 ensures nameOf(xs[j]) != name {
            if j > 0 {
              assert xs[j] == xs[1..][j - 1];
            }
          }
        }
      } else {
        forall i | 0 <= i < |xs| ensures nameOf(xs[i]) != name {
          if i > 0 {
            assert xs[i] == xs[1..][i - 1];
          }
        }
      }
    } else if xs != [] {
      assert xs[0] == FindByName(xs, nameOf, name).value;
    }
  }

  /** The props select the first country and the first state of their name, or nothing for an empty prop. */
  lemma PropsSelectFirst(countries: seq<Country>, states: seq<State>, valueCountry: string, valueState: string)
    ensures var c := CountryFromProp(countries, valueCountry);
      && (valueCountry == "" ==> c.None?)
      && (c.Some? ==> exists i :: 0 <= i < |countries| && countries[i] == c.value && c.value.name == valueCountry
                                  && forall j :: 0 <= j < i ==> countries[j].name != valueCountry)
    ensures var x := StateFromProp(states, valueState);
      && (valueState == "" ==> x.None?)
      && (valueState != "" && x.None? ==> forall i :: 0 <= i < |states| ==> states[i].name != valueState)
      && (x.Some? ==> exists i :: 0 <= i < |states| && states[i] == x.value && x.value.name == valueState
                                  && forall j :: 0 <= j < i ==> states[j].name != valueState)
  {
    FindFirst(countries, CountryName, valueCountry);
    FindFirst(states, StateName, valueState);
  }

  /**
   * `valueState` may select a state of another country: with a state of the
   * same name listed earlier, the prop picks that one, which the selected
   * country does not offer.
   */
  lemma ValueStateCanLeaveCountry()
    ensures var states := [State(1, "Central", 10), State(2, "Central", 20)];
      var chosen := StateFromProp(states, "Central");
      && chosen == Some(State(1, "Central", 10))
      && chosen.value !in AvailableStates(states, Some(Country(20, "Second")))
  {
    var states := [State(1, "Central", 10), State(2, "Central", 20)];
    AvailableStatesExact(states, Some(Country(20, "Second")));
  }

  /** The state selector appears only with a country selected, so its button is never disabled while shown. */
  lemma StateSelectorNeedsCountry(states: seq<State>, selected: Option<Country>)
    ensures StateSelectorShown(states, selected) ==> selected.Some?
    ensures StateSelectorShown(states, selected) <==>
      selected.Some? && exists x :: x in states && x.countryId == selected.value.id
  {
    AvailableStatesExact(states, selected);
    var r := AvailableStates(states, selected);
    if |r| > 0 {
      assert r[0] in r;
    }
  }
}
