/**
  The page's selection state: the city picked on the map, the target company
  and the other company picked in the tables, and whether the detail modal is
  open. The page changes it through three handlers and the map's city click.
 */
module Selection {
  import opened DashboardTypes

  datatype State = State(
    selectedCity: Option<City>,
    selectedCompany: Option<Company>,
    selectedOtherCompany: Option<Company>,
    isModalOpen: bool)

  /** The state when the page mounts: nothing selected, modal closed. */
  const Initial := State(None, None, None, false)

  /** `handleCompanyClick`: select a target company and open the modal. */
  function HandleCompanyClick(s: State, company: Company): (r: State)
    ensures r.selectedCompany == Some(company) && r.isModalOpen
    ensures r.selectedCity == s.selectedCity && r.selectedOtherCompany == s.selectedOtherCompany
  {
    s.(selectedCompany := Some(company), isModalOpen := true)
  }

  /** `handleOtherCompanyClick`: select an other company and open the modal. */
  function HandleOtherCompanyClick(s: State, company: Company): (r: State)
    ensures r.selectedOtherCompany == Some(company) && r.isModalOpen
    ensures r.selectedCity == s.selectedCity && r.selectedCompany == s.selectedCompany
  {
    s.(selectedOtherCompany := Some(company), isModalOpen := true)
  }

  /** `handleCloseModal`: close the modal and forget both company selections; the city stays. */
  function HandleCloseModal(s: State): (r: State)
    ensures !r.isModalOpen && r.selectedCompany.None? && r.selectedOtherCompany.None?
    ensures r.selectedCity == s.selectedCity
  {
    State(s.selectedCity, None, None, false)
  }

  /** The map's `onCityClick`, bound straight to `setSelectedCity`: only the city changes. */
  function CityClick(s: State, city: City): (r: State)
    ensures r.selectedCity == Some(city)
    ensures r.selectedCompany == s.selectedCompany && r.selectedOtherCompany == s.selectedOtherCompany
    ensures r.isModalOpen == s.isModalOpen
  {
    s.(selectedCity := Some(city))
  }

  /** The page's user events. */
  datatype Event =
    | CityClicked(city: City)
    | CompanyClicked(company: Company)
    | OtherCompanyClicked(company: Company)
    | ModalClosed

  function Apply(s: State, e: Event): State
  {
    match e
    case CityClicked(city) => CityClick(s, city)
    case CompanyClicked(company) => HandleCompanyClick(s, company)
    case OtherCompanyClicked(company) => HandleOtherCompanyClick(s, company)
    case ModalClosed => HandleCloseModal(s)
  }

  /** The state after a sequence of events, first event first. */
  function Run(s: State, events: seq<Event>): State
    decreases |events|
  {
    if |events| == 0 then s else Run(Apply(s, events[0]), events[1..])
  }

  /** The modal is open exactly when some company is selected. */
  predicate Consistent(s: State)
  {
    s.isModalOpen <==> (s.selectedCompany.Some? || s.selectedOtherCompany.Some?)
  }

  /** Every handler keeps the modal flag and the company selections in step. */
  lemma ApplyKeepsConsistent(s: State, e: Event)
    requires Consistent(s)
    ensures Consistent(Apply(s, e))
  {
  }

  /** From the initial state, whatever the user clicks, the modal is open exactly when a company is selected. */
  lemma {:induction false} RunKeepsConsistent(s: State, events: seq<Event>)
    requires Consistent(s)
    ensures Consistent(Run(s, events))
    decreases |events|
  {
    if |events| > 0 {
      ApplyKeepsConsistent(s, events[0]);
      RunKeepsConsistent(Apply(s, events[0]), events[1..]);
    }
  }

  /** Each detail modal is mounted only when its company is selected, and is then shown open. */
  lemma ReachableModalsAreOpen(events: seq<Event>)
    ensures Run(Initial, events).selectedCompany.Some? ==> Run(Initial, events).isModalOpen
    ensures Run(Initial, events).selectedOtherCompany.Some? ==> Run(Initial, events).isModalOpen
  {
    RunKeepsConsistent(Initial, events);
  }

  /** Closing the modal undoes any company clicks made since the last close; only city clicks survive. */
  lemma CloseForgetsCompanyClicks(s: State, company: Company)
    ensures HandleCloseModal(HandleCompanyClick(s, company)) == HandleCloseModal(s)
    ensures HandleCloseModal(HandleOtherCompanyClick(s, company)) == HandleCloseModal(s)
    ensures HandleCloseModal(HandleCloseModal(s)) == HandleCloseModal(s)
  {
  }

  /** A city click and a company click touch different parts of the state, so their order does not matter. */
  lemma CityClickCommutes(s: State, city: City, company: Company)
    ensures CityClick(HandleCompanyClick(s, company), city) == HandleCompanyClick(CityClick(s, city), company)
    ensures CityClick(HandleOtherCompanyClick(s, company), city) == HandleOtherCompanyClick(CityClick(s, city), company)
  {
  }

  /** Picking a company in one city and then another city keeps the company selected and the modal open. */
  lemma CityClickKeepsCompany(city1: City, company: Company, city2: City)
    ensures Run(Initial, [CityClicked(city1), CompanyClicked(company), CityClicked(city2)])
         == State(Some(city2), Some(company), None, true)
  {
    var events := [CityClicked(city1), CompanyClicked(company), CityClicked(city2)];
    var s1 := Apply(Initial, events[0]);
    var s2 := Apply(s1, events[1]);
    var s3 := Apply(s2, events[2]);
    assert events[1..][1..][1..] == [];
    assert Run(s3, []) == s3;
    assert Run(s2, events[1..][1..]) == s3;
    assert Run(s1, events[1..]) == s3;
  }

  /** A run of map clicks only: every event picks a city. */
  predicate OnlyCityClicks(events: seq<Event>)
  {
    forall i :: 0 <= i < |events| ==> events[i].CityClicked?
  }

  /** Map clicks change only the selected city, which ends as the last city clicked. */
  lemma {:induction false} CityClicksChangeOnlyCity(s: State, events: seq<Event>)
    requires OnlyCityClicks(events)
    ensures |events| == 0 ==> Run(s, events) == s
    ensures |events| > 0 ==> Run(s, events) == s.(selectedCity := Some(events[|events| - 1].city))
    decreases |events|
  {
    if |events| > 0 {
      var rest := events[1..];
      assert forall i :: 0 <= i < |rest| ==> rest[i] == events[i + 1];
      CityClicksChangeOnlyCity(Apply(s, events[0]), rest);
      if |rest| > 0 {
        assert rest[|rest| - 1] == events[|events| - 1];
      }
    }
  }

  /** After the modal is closed, clicking through cities brings back no company from an earlier city. */
  lemma CloseThenCityClicksSelectNothing(s: State, events: seq<Event>)
    requires OnlyCityClicks(events)
    ensures Run(HandleCloseModal(s), events).selectedCompany.None?
    ensures Run(HandleCloseModal(s), events).selectedOtherCompany.None?
    ensures !Run(HandleCloseModal(s), events).isModalOpen
  {
    CityClicksChangeOnlyCity(HandleCloseModal(s), events);
  }
}
